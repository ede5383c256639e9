/**
 * Dataset ingestion ("Train Bot"): an uploaded CSV that the parser accepts is
 * stored as one more `datasets` row. The CSV parser is not modelled: it is the
 * parameter `parses`, which says whether a file's bytes read as CSV.
 */
module Ingest {
  import opened Wrappers
  import opened Store
  import Auth

  /** What the uploader hands over: the file's name and its bytes. */
  datatype UploadedFile = UploadedFile(name: string, bytes: seq<byte>)

  datatype TrainOutcome = Trained | NoFile | ParseError

  datatype Training = Training(outcome: TrainOutcome, tables: Tables)

  /** The "Train Bot" button for the signed-in user in the selected domain. */
  function Train(t: Tables, userEmail: string, domain: string, file: Option<UploadedFile>,
                 parses: seq<byte> -> bool): (r: Training)
    ensures r.outcome == NoFile <==> file.None?
    ensures r.outcome == Trained <==> file.Some? && parses(file.value.bytes)
    ensures r.outcome != Trained ==> r.tables == t
    ensures r.outcome == Trained ==>
              && r.tables.users == t.users
              && |r.tables.datasets| == |t.datasets| + 1
              && r.tables.datasets[..|t.datasets|] == t.datasets
              && var row := r.tables.datasets[|t.datasets|];
                 row == DatasetRecord(|t.datasets| + 1, userEmail, file.value.name, domain, file.value.bytes)
    ensures WellFormed(t) ==> WellFormed(r.tables)
  {
    match file
    case None => Training(NoFile, t)
    case Some(f) =>
      if !parses(f.bytes) then Training(ParseError, t)
      else Training(Trained, AddDataset(t, userEmail, f.name, domain, f.bytes))
  }

  /** A write to the store: a sign-up form or a Train Bot click. */
  datatype Action =
    | SignUp(form: Auth.RegisterForm, salt: Auth.Salt)
    | TrainBot(userEmail: string, domain: string, file: Option<UploadedFile>)

  /** The store after a run of actions, in order. */
  function Replay(t: Tables, h: Auth.Hasher, parses: seq<byte> -> bool, actions: seq<Action>): Tables
    decreases |actions|
  {
    if actions == [] then t
    else
      var t' := match actions[0]
        case SignUp(f, salt) => Auth.Register(t, h, f, salt).tables
        case TrainBot(e, d, file) => Train(t, e, d, file, parses).tables;
      Replay(t', h, parses, actions[1..])
  }

  /**
   * Across any run of sign-ups and trainings the store stays well formed, no
   * user row is changed or removed, and earlier dataset rows stay in place.
   */
  lemma {:induction false} StoreOnlyGrows(t: Tables, h: Auth.Hasher, parses: seq<byte> -> bool,
                                          actions: seq<Action>)
    requires WellFormed(t)
    ensures var r := Replay(t, h, parses, actions);
            && WellFormed(r)
            && t.users.Keys <= r.users.Keys
            && (forall e :: e in t.users ==> r.users[e] == t.users[e])
            && t.datasets <= r.datasets
    decreases |actions|
  {
    if actions != [] {
      var t' := match actions[0]
        case SignUp(f, salt) => Auth.Register(t, h, f, salt).tables
        case TrainBot(e, d, file) => Train(t, e, d, file, parses).tables;
      assert t.datasets <= t'.datasets;
      StoreOnlyGrows(t', h, parses, actions[1..]);
    }
  }
}
