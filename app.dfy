/**
 * The Streamlit session (`st.session_state`) as a mutable object. Python lists
 * are objects here (MessageList), so that `chat_history[d]` and `messages` can
 * be the same list, as they are after a domain is selected: appending to the
 * active view then grows the stored transcript, and clearing it at logout
 * empties that transcript in place. Every method is tied to the matching
 * function of the Session module through State().
 */
module App {
  import opened Wrappers
  import opened Chat
  import opened Store
  import Session
  import Auth
  import Ingest

  /** A Python list of messages; several names may refer to the same list. */
  class MessageList {
    var items: seq<Message>

    constructor ()
      ensures items == []
    {
      items := [];
    }
  }

  /** `st.session_state`: the page, the identity, the domain and the transcripts. */
  class SessionState {
    var page: Session.Page
    var loggedInEmail: Option<string>
    var selectedDomain: Option<string>
    var chatHistory: map<string, MessageList>
    var messages: MessageList

    /**
     * Distinct domains keep distinct lists; with a domain selected, `messages`
     * IS that domain's list, and with none selected it is an empty list.
     */
    ghost predicate Valid()
      reads this, messages
    {
      && (forall d, e :: d in chatHistory && e in chatHistory && d != e ==> chatHistory[d] != chatHistory[e])
      && match selectedDomain
         case Some(d) => d in chatHistory && chatHistory[d] == messages
         case None => messages.items == []
    }

    /** The session's value: every list read through its current contents. */
    ghost function State(): Session.State
      reads this, messages, chatHistory.Values
    {
      Session.State(page, loggedInEmail, selectedDomain,
                    map d | d in chatHistory :: chatHistory[d].items, messages.items)
    }

    /** The object's invariant is the value's: the alias model and the view model agree. */
    lemma ValidState()
      requires Valid()
      ensures Session.Valid(State())
    {
    }

    /** The defaults set on a visitor's first run. */
    constructor ()
      ensures Valid() && State() == Session.Start()
    {
      page := Session.Register;
      loggedInEmail := None;
      selectedDomain := None;
      chatHistory := map[];
      messages := new MessageList();
    }

    /** `navigate_to_login`, `navigate_to_register`, `navigate_to_upload`, `navigate_to_policy`. */
    method NavigateTo(p: Session.Page)
      requires Valid()
      modifies this
      ensures Valid() && State() == Session.NavigateTo(old(State()), p)
      ensures messages == old(messages) && chatHistory == old(chatHistory)
    {
      page := p;
    }

    /** `select_domain_callback`: `messages` becomes the very list stored for the domain. */
    method SelectDomain(domain: string)
      requires Valid()
      modifies this
      ensures Valid() && State() == Session.SelectDomain(old(State()), domain)
      ensures messages == chatHistory[domain]
      ensures domain in old(chatHistory) ==> chatHistory == old(chatHistory)
      ensures domain !in old(chatHistory) ==> fresh(messages) && chatHistory == old(chatHistory)[domain := messages]
    {
      selectedDomain := Some(domain);
      if domain !in chatHistory {
        var list := new MessageList();
        chatHistory := chatHistory[domain := list];
      }
      messages := chatHistory[domain];
      assert State().chatHistory == Session.SelectDomain(old(State()), domain).chatHistory;
    }

    /** "Change Domain": `messages` is rebound to a new empty list; stored lists are untouched. */
    method ChangeDomain()
      requires Valid()
      modifies this
      ensures Valid() && State() == Session.ChangeDomain(old(State()))
      ensures fresh(messages) && chatHistory == old(chatHistory)
    {
      selectedDomain := None;
      messages := new MessageList();
    }

    /**
     * `handle_chat_input(domain)` on the selected domain, with `prompt` what the
     * chat box submitted ("" when nothing was). Both appends go to the shared
     * list, which is then stored again under the domain.
     */
    method HandleChatInput(domain: string, prompt: string)
      requires Valid() && selectedDomain == Some(domain)
      modifies this, messages
      ensures Valid() && State() == Session.Submit(old(State()), prompt)
      ensures messages == old(messages) && chatHistory == old(chatHistory)
    {
      if prompt != "" {
        ghost var before, lists := State(), chatHistory;
        messages.items := messages.items + [Message(Role.User, prompt)];
        chatHistory := chatHistory[domain := messages];
        var response := Reply(domain, prompt);
        messages.items := messages.items + [Message(Assistant, response)];
        chatHistory := chatHistory[domain := messages];
        assert chatHistory == lists;
        forall e | e in chatHistory && e != domain
          ensures chatHistory[e].items == before.chatHistory[e]
        {
          assert chatHistory[e] != messages;
        }
        assert State().chatHistory == before.chatHistory[domain := messages.items];
      }
    }

    /** The sidebar's Logout button. */
    method Logout()
      requires Valid()
      modifies this, messages
      ensures Valid() && State() == Session.Logout(old(State()))
      ensures messages == old(messages)
    {
      loggedInEmail := None;
      selectedDomain := None;
      messages.items := [];
      chatHistory := map[];
      NavigateTo(Session.Login);
    }

    /** The entry check of the upload page. */
    method ShowUploadPage()
      requires Valid() && page == Session.Upload
      modifies this
      ensures Valid() && State() == Session.GuardUpload(old(State()))
      ensures messages == old(messages) && chatHistory == old(chatHistory)
    {
      if loggedInEmail.None? {
        NavigateTo(Session.Login);
      }
    }

    /** The sign-up form's submit button. */
    method SubmitRegister(db: Database, h: Auth.Hasher, form: Auth.RegisterForm, salt: Auth.Salt)
      returns (outcome: Auth.RegisterOutcome)
      requires Valid() && db.Valid()
      modifies this, db
      ensures Valid() && db.Valid()
      ensures var reg := Auth.Register(old(db.Contents()), h, form, salt);
              outcome == reg.outcome && db.Contents() == reg.tables
      ensures State() == if outcome == Auth.Registered then Session.NavigateTo(old(State()), Session.Login)
                         else old(State())
    {
      if Auth.Complete(form) {
        var hashed := h.hash(form.password, salt);
        ghost var before := State();
        var ok := db.InsertUser(form.name, form.email, hashed);
        assert State() == before;
        if ok {
          outcome := Auth.Registered;
          NavigateTo(Session.Login);
        } else {
          outcome := Auth.EmailExists;
        }
      } else {
        outcome := Auth.MissingFields;
      }
    }

    /** The sign-in form's submit button. */
    method SubmitLogin(db: Database, h: Auth.Hasher, email: string, password: string)
      returns (identity: Option<string>)
      requires Valid() && db.Valid()
      modifies this
      ensures Valid()
      ensures identity == Auth.Login(db.Contents(), h, email, password)
      ensures State() == if identity.Some? then Session.SignIn(old(State()), identity.value) else old(State())
    {
      var row := db.SelectUser(email);
      if row.Some? && h.checks(password, row.value.passwordHash) {
        identity := Some(row.value.email);
        loggedInEmail := identity;
        NavigateTo(Session.Upload);
      } else {
        identity := None;
      }
    }

    /** The "Train Bot" button, shown to the signed-in user once a domain is selected. */
    method TrainBot(db: Database, file: Option<Ingest.UploadedFile>, parses: seq<byte> -> bool)
      returns (outcome: Ingest.TrainOutcome)
      requires Valid() && db.Valid()
      requires loggedInEmail.Some? && selectedDomain.Some?
      modifies db
      ensures db.Valid()
      ensures var training := Ingest.Train(old(db.Contents()), loggedInEmail.value, selectedDomain.value, file, parses);
              outcome == training.outcome && db.Contents() == training.tables
    {
      var userEmail, domain := loggedInEmail.value, selectedDomain.value;
      match file {
        case None =>
          outcome := Ingest.NoFile;
        case Some(f) =>
          if parses(f.bytes) {
            db.InsertDataset(userEmail, f.name, domain, f.bytes);
            outcome := Ingest.Trained;
          } else {
            outcome := Ingest.ParseError;
          }
      }
    }

    /** The sidebar's history section, listed by the enumerate loop over the stored transcript. */
    method SidebarHistory() returns (panel: Session.Panel)
      requires Valid()
      ensures panel == Session.Sidebar(State())
    {
      if loggedInEmail.None? || page != Session.Upload {
        return Session.Hidden;
      }
      match selectedDomain {
        case None =>
          panel := Session.NoDomain;
        case Some(d) =>
          if d == "" {
            panel := Session.NoDomain;
          } else if d in chatHistory && chatHistory[d].items != [] {
            var entries := ListHistory(chatHistory[d].items);
            panel := Session.Listing(d, entries);
          } else {
            panel := Session.NoHistory(d);
          }
      }
    }
  }

  /** Signing up twice with one email, then signing in with the registered password. */
  method SignUpTwiceThenSignIn(h: Auth.Hasher, salt: Auth.Salt)
    requires Auth.Sound(h)
  {
    var db := new Database();
    var session := new SessionState();
    var form := Auth.RegisterForm("A", "a@x.com", "secret", true);
    var first := session.SubmitRegister(db, h, form, salt);
    assert first == Auth.Registered && session.page == Session.Login;
    Auth.RegisteredUserCanLogin(NoTables, h, form, salt);
    var second := session.SubmitRegister(db, h, form, salt);
    assert second == Auth.EmailExists;
    var identity := session.SubmitLogin(db, h, "a@x.com", "secret");
    assert identity == Some("a@x.com") && session.page == Session.Upload;
  }

  /** Chatting in Sports, visiting Education, and coming back to the same Sports transcript. */
  method ChatAcrossDomains(session: SessionState)
    requires session.Valid()
    modifies session, session.chatHistory.Values, session.messages
  {
    session.SelectDomain("Sports");
    var before := session.messages.items;
    session.HandleChatInput("Sports", "who won?");
    var sports := session.messages.items;
    assert sports == before + Exchange("Sports", "who won?");
    session.ChangeDomain();
    session.SelectDomain("Education");
    session.ChangeDomain();
    session.SelectDomain("Sports");
    assert session.messages.items == sports;
  }

  /** Logging out and in again leaves no transcript behind. */
  method LogoutForgets(session: SessionState, db: Database, h: Auth.Hasher, email: string, password: string)
    requires session.Valid() && db.Valid()
    modifies session, session.messages
  {
    session.Logout();
    assert session.State().chatHistory == map[] && session.page == Session.Login;
    var identity := session.SubmitLogin(db, h, email, password);
    assert session.State().chatHistory == map[] && session.messages.items == [];
  }
}
