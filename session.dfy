/**
 * The session as a value: the page shown, the signed-in email, the selected
 * domain, every domain's transcript (`chat_history`) and the active transcript
 * view (`messages`). Each UI callback is a function from session to session.
 */
module Session {
  import opened Wrappers
  import opened Chat

  datatype Page = Register | Login | Policy | Upload

  datatype State = State(page: Page,
                         loggedInEmail: Option<string>,
                         selectedDomain: Option<string>,
                         chatHistory: map<string, seq<Message>>,
                         messages: seq<Message>)

  /**
   * The active view is the selected domain's transcript, and is empty while
   * no domain is selected.
   */
  predicate Valid(s: State) {
    match s.selectedDomain
    case Some(d) => d in s.chatHistory && s.messages == s.chatHistory[d]
    case None => s.messages == []
  }

  /** Every domain's transcript is a dialogue of prompts and their replies. */
  predicate Dialogues(s: State) {
    forall d :: d in s.chatHistory ==> Dialogue(d, s.chatHistory[d])
  }

  /** The upload page is only ever shown to a signed-in user. */
  predicate Guarded(s: State) {
    s.page == Upload ==> s.loggedInEmail.Some?
  }

  /** A domain's transcript; empty when it has none yet. */
  function Transcript(s: State, domain: string): seq<Message> {
    if domain in s.chatHistory then s.chatHistory[domain] else []
  }

  /** The session a new visitor gets: the sign-up page, nobody signed in, no transcripts. */
  function Start(): (s: State)
    ensures Valid(s) && Guarded(s)
    ensures s.page == Register && s.loggedInEmail.None? && s.selectedDomain.None?
    ensures forall d :: Transcript(s, d) == []
  {
    State(Register, None, None, map[], [])
  }

  /** `navigate_to_*`: only the page changes. */
  function NavigateTo(s: State, p: Page): (r: State)
    ensures r.page == p
    ensures r.(page := s.page) == s
    ensures Valid(s) ==> Valid(r)
    ensures Guarded(s) && p != Upload ==> Guarded(r)
  {
    s.(page := p)
  }

  /**
   * `select_domain_callback`: select `d`, give it an empty transcript only if
   * it has none, and make its transcript the active view.
   */
  function SelectDomain(s: State, d: string): (r: State)
    ensures Valid(r) && r.selectedDomain == Some(d)
    ensures r.chatHistory.Keys == s.chatHistory.Keys + {d}
    ensures r.messages == Transcript(s, d)
    ensures forall e :: Transcript(r, e) == Transcript(s, e)
    ensures r.page == s.page && r.loggedInEmail == s.loggedInEmail
  {
    var history := if d in s.chatHistory then s.chatHistory else s.chatHistory[d := []];
    s.(selectedDomain := Some(d), chatHistory := history, messages := history[d])
  }

  /** "Change Domain": no domain selected, a fresh empty view, every transcript kept. */
  function ChangeDomain(s: State): (r: State)
    ensures Valid(r) && r.selectedDomain.None? && r.messages == []
    ensures r.chatHistory == s.chatHistory
    ensures r.page == s.page && r.loggedInEmail == s.loggedInEmail
  {
    s.(selectedDomain := None, messages := [])
  }

  /**
   * `handle_chat_input` for the selected domain: a non-empty prompt appends the
   * prompt and then the placeholder reply to the active view, which becomes the
   * domain's transcript; an empty prompt is no submission at all.
   */
  function Submit(s: State, prompt: string): (r: State)
    requires s.selectedDomain.Some?
    ensures prompt == "" ==> r == s
    ensures var d := s.selectedDomain.value;
            prompt != "" && Valid(s) ==>
              && Transcript(r, d) == Transcript(s, d) + Exchange(d, prompt)
              && |Transcript(r, d)| == |Transcript(s, d)| + 2
              && r.messages == Transcript(r, d)
              && (forall e :: e != d ==> Transcript(r, e) == Transcript(s, e))
    ensures Valid(s) ==> r.chatHistory.Keys == s.chatHistory.Keys
    ensures r.page == s.page && r.loggedInEmail == s.loggedInEmail && r.selectedDomain == s.selectedDomain
    ensures Valid(s) ==> Valid(r)
  {
    if prompt == "" then s
    else
      var d := s.selectedDomain.value;
      var withPrompt := s.messages + [Message(User, prompt)];
      var withReply := withPrompt + [Message(Assistant, Reply(d, prompt))];
      s.(chatHistory := s.chatHistory[d := withReply], messages := withReply)
  }

  /** The sidebar's Logout: sign out, deselect, forget every transcript, back to login. */
  function Logout(s: State): (r: State)
    ensures r.page == Login && r.loggedInEmail.None? && r.selectedDomain.None?
    ensures r.messages == [] && r.chatHistory == map[] && forall d :: Transcript(r, d) == []
    ensures Valid(r) && Guarded(r)
  {
    State(Login, None, None, map[], [])
  }

  /** A successful sign-in: the identity is recorded and the upload page shown. */
  function SignIn(s: State, email: string): (r: State)
    ensures r.page == Upload && r.loggedInEmail == Some(email) && Guarded(r)
    ensures r.selectedDomain == s.selectedDomain && r.chatHistory == s.chatHistory && r.messages == s.messages
  {
    s.(loggedInEmail := Some(email), page := Upload)
  }

  /** Showing the upload page: without a signed-in user it sends the visitor to login. */
  function GuardUpload(s: State): (r: State)
    requires s.page == Upload
    ensures Guarded(r)
    ensures s.loggedInEmail.Some? ==> r == s
    ensures s.loggedInEmail.None? ==> r == NavigateTo(s, Login)
  {
    if s.loggedInEmail.None? then NavigateTo(s, Login) else s
  }

  /** What the sidebar's history section shows. */
  datatype Panel =
    | Hidden                                      // not signed in, or not on the upload page
    | NoDomain                                    // "Select a domain to view chat history."
    | NoHistory(domain: string)                   // "No history for this domain yet."
    | Listing(domain: string, entries: seq<Entry>)

  /** The sidebar's history section for a session. */
  function Sidebar(s: State): (r: Panel)
    ensures r.Hidden? <==> s.loggedInEmail.None? || s.page != Upload
    ensures !r.Hidden? ==> (r.NoDomain? <==> s.selectedDomain.None? || s.selectedDomain == Some(""))
    ensures r.NoHistory? ==> r.domain != "" && s.selectedDomain == Some(r.domain) && Transcript(s, r.domain) == []
    ensures r.Listing? ==> r.domain != "" && s.selectedDomain == Some(r.domain) && Transcript(s, r.domain) != []
                           && r.entries == Entries(Transcript(s, r.domain))
  {
    if s.loggedInEmail.None? || s.page != Upload then Hidden
    else match s.selectedDomain
      // the source tests the domain's truthiness, so an empty name counts as none selected
      case None => NoDomain
      case Some(d) =>
        if d == "" then NoDomain
        else if Transcript(s, d) == [] then NoHistory(d)
        else Listing(d, Entries(Transcript(s, d)))
  }

  /** Deselecting and reselecting the domain gives back exactly the same session. */
  lemma ReselectRestores(s: State, d: string)
    requires Valid(s) && s.selectedDomain == Some(d)
    ensures SelectDomain(ChangeDomain(s), d) == s
  {
  }

  /** Signing in again after a logout finds no transcript for any domain. */
  lemma LoginAfterLogoutStartsEmpty(s: State, email: string, d: string)
    ensures Transcript(SignIn(Logout(s), email), d) == []
    ensures SignIn(Logout(s), email).messages == []
  {
  }

  /** The exchanges a run of prompts adds to a domain; empty prompts add nothing. */
  function Conversation(d: string, prompts: seq<string>): seq<Message>
    decreases |prompts|
  {
    if prompts == [] then []
    else (if prompts[0] == "" then [] else Exchange(d, prompts[0])) + Conversation(d, prompts[1..])
  }

  /** A conversation is a dialogue: every prompt is followed by its reply. */
  lemma {:induction false} ConversationIsDialogue(d: string, prompts: seq<string>)
    ensures Dialogue(d, Conversation(d, prompts))
    decreases |prompts|
  {
    if prompts != [] {
      ConversationIsDialogue(d, prompts[1..]);
      var c, rest := Conversation(d, prompts), Conversation(d, prompts[1..]);
      if prompts[0] == "" {
        assert c == rest;
      } else {
        var x := Exchange(d, prompts[0]);
        assert c == x + rest;
        assert c[..2] == x && c[2..] == rest;
      }
    }
  }

  /** Submitting a run of prompts in the selected domain. */
  function SubmitAll(s: State, prompts: seq<string>): (r: State)
    requires s.selectedDomain.Some?
    ensures r.selectedDomain == s.selectedDomain
    decreases |prompts|
  {
    if prompts == [] then s else SubmitAll(Submit(s, prompts[0]), prompts[1..])
  }

  /**
   * Chatting only appends: the selected domain's transcript becomes the old
   * one followed by the conversation, and no other domain's transcript moves.
   */
  lemma {:induction false} SubmitAllAppends(s: State, prompts: seq<string>)
    requires Valid(s) && s.selectedDomain.Some?
    ensures var d, r := s.selectedDomain.value, SubmitAll(s, prompts);
            && Valid(r)
            && Transcript(r, d) == Transcript(s, d) + Conversation(d, prompts)
            && (forall e :: e != d ==> Transcript(r, e) == Transcript(s, e))
    decreases |prompts|
  {
    var d := s.selectedDomain.value;
    if prompts == [] {
      assert Transcript(s, d) + [] == Transcript(s, d);
    } else {
      var p, s' := prompts[0], Submit(s, prompts[0]);
      var step := if p == "" then [] else Exchange(d, p);
      assert Transcript(s', d) == Transcript(s, d) + step by {
        if p == "" { assert Transcript(s, d) + [] == Transcript(s, d); }
      }
      SubmitAllAppends(s', prompts[1..]);
      assert Conversation(d, prompts) == step + Conversation(d, prompts[1..]);
      assert Transcript(s, d) + step + Conversation(d, prompts[1..])
          == Transcript(s, d) + (step + Conversation(d, prompts[1..]));
    }
  }

  /** One user action on the session. */
  datatype Event =
    | Go(page: Page)
    | Pick(domain: string)
    | Deselect
    | Say(prompt: string)
    | SignedIn(email: string)
    | SignOut
    | ShowUpload

  /** The session after one event; a prompt with no domain selected has no input box to go to. */
  function Apply(s: State, ev: Event): State {
    match ev
    case Go(p) => NavigateTo(s, p)
    case Pick(d) => SelectDomain(s, d)
    case Deselect => ChangeDomain(s)
    case Say(prompt) => if s.selectedDomain.Some? then Submit(s, prompt) else s
    case SignedIn(email) => SignIn(s, email)
    case SignOut => Logout(s)
    case ShowUpload => if s.page == Upload then GuardUpload(s) else s
  }

  function Run(s: State, events: seq<Event>): State
    decreases |events|
  {
    if events == [] then s else Run(Apply(s, events[0]), events[1..])
  }

  /**
   * Until the next logout, every domain's transcript only grows at its end, and
   * the active view stays the selected domain's transcript.
   */
  lemma {:induction false} TranscriptsOnlyGrow(s: State, events: seq<Event>)
    requires Valid(s)
    requires SignOut !in events
    ensures Valid(Run(s, events))
    ensures forall d :: Transcript(s, d) <= Transcript(Run(s, events), d)
    decreases |events|
  {
    if events != [] {
      var s' := Apply(s, events[0]);
      assert forall d :: Transcript(s, d) <= Transcript(s', d);
      assert events == [events[0]] + events[1..];
      TranscriptsOnlyGrow(s', events[1..]);
    }
  }

  /** One event keeps the session valid and each transcript a dialogue. */
  lemma ApplyKeepsDialogues(s: State, ev: Event)
    requires Valid(s) && Dialogues(s)
    ensures Valid(Apply(s, ev)) && Dialogues(Apply(s, ev))
  {
    match ev
    case Say(prompt) =>
      if s.selectedDomain.Some? && prompt != "" {
        var d := s.selectedDomain.value;
        var r := Submit(s, prompt);
        DialogueExtend(d, s.chatHistory[d], prompt);
        assert r.chatHistory == s.chatHistory[d := s.chatHistory[d] + Exchange(d, prompt)];
      }
    case Pick(d) =>
      assert Dialogue(d, []);
    case _ =>
  }

  /** Every run of events keeps each transcript a dialogue of prompts and their replies. */
  lemma {:induction false} TranscriptsStayDialogues(s: State, events: seq<Event>)
    requires Valid(s) && Dialogues(s)
    ensures Dialogues(Run(s, events))
    decreases |events|
  {
    if events != [] {
      ApplyKeepsDialogues(s, events[0]);
      TranscriptsStayDialogues(Apply(s, events[0]), events[1..]);
    }
  }
}
