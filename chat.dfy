/**
 * The chat engine's values: messages, the placeholder assistant reply, and the
 * sidebar's numbered summary of a transcript's user prompts.
 */
module Chat {
  import opened Wrappers
  import Catalog

  datatype Role = User | Assistant

  datatype Message = Message(role: Role, content: string)

  // The fixed text around the domain display and the prompt in every reply.
  const ReplyOpening: string := "I see you're interested in **"
  const ReplyBridge: string := "**! To answer your question, '"
  const ReplyClosing: string := "', I need to load your training dataset first."

  /** Everything a reply for `domain` holds before the prompt. */
  function ReplyHead(domain: string): string {
    ReplyOpening + Catalog.Display(domain) + ReplyBridge
  }

  /** The placeholder reply to `prompt` in `domain`; nothing is inferred. */
  function Reply(domain: string, prompt: string): string {
    ReplyHead(domain) + prompt + ReplyClosing
  }

  /** Reads back the prompt that a reply for `domain` quotes; `None` for any other text. */
  function PromptOf(domain: string, reply: string): (r: Option<string>)
    ensures r.Some? ==> |r.value| == |reply| - |ReplyHead(domain)| - |ReplyClosing|
  {
    var head := ReplyHead(domain);
    if |reply| >= |head| + |ReplyClosing|
       && reply[..|head|] == head
       && reply[|reply| - |ReplyClosing|..] == ReplyClosing
    then Some(reply[|head|..|reply| - |ReplyClosing|])
    else None
  }

  /** Slicing out the middle piece of a three-part concatenation. */
  lemma MiddleOfConcat(a: string, b: string, c: string)
    ensures (a + b + c)[..|a|] == a
    ensures (a + b + c)[|a|..|a| + |b|] == b
    ensures (a + b + c)[|a + b|..] == c
  {
  }

  /** A reply quotes its prompt verbatim: PromptOf recovers it. */
  lemma ReplyRoundTrip(domain: string, prompt: string)
    ensures PromptOf(domain, Reply(domain, prompt)) == Some(prompt)
  {
    var head := ReplyHead(domain);
    MiddleOfConcat(head, prompt, ReplyClosing);
  }

  /** A text that starts with `a` and ends with `c` is `a`, its middle, then `c`. */
  lemma SplitAround(t: string, a: string, c: string)
    requires |t| >= |a| + |c| && t[..|a|] == a && t[|t| - |c|..] == c
    ensures a + t[|a|..|t| - |c|] + c == t
  {
    assert t == t[..|a|] + t[|a|..|t| - |c|] + t[|t| - |c|..];
  }

  /** Conversely, any text PromptOf accepts is the reply to the prompt it reads back. */
  lemma PromptOfSound(domain: string, reply: string)
    requires PromptOf(domain, reply).Some?
    ensures Reply(domain, PromptOf(domain, reply).value) == reply
  {
    SplitAround(reply, ReplyHead(domain), ReplyClosing);
  }

  /** `needle` stands in `hay` at position `i`. */
  predicate OccursAt(needle: string, hay: string, i: nat) {
    i + |needle| <= |hay| && hay[i..i + |needle|] == needle
  }

  /** `needle` occurs in `hay` as a contiguous piece. */
  ghost predicate Occurs(needle: string, hay: string) {
    exists i: nat :: OccursAt(needle, hay, i)
  }

  /** The middle piece of a concatenation occurs where it was put. */
  lemma OccursInConcat(pre: string, x: string, post: string)
    ensures OccursAt(x, pre + x + post, |pre|)
  {
    MiddleOfConcat(pre, x, post);
  }

  /** The first piece of a concatenation occurs at its start. */
  lemma OccursAtStart(x: string, b: string, c: string)
    ensures OccursAt(x, x + b + c, 0)
  {
    assert (x + b + c)[..|x|] == x;
  }

  /** An occurrence inside an occurrence. */
  lemma OccursTransitive(x: string, y: string, z: string, i: nat, j: nat)
    requires OccursAt(x, y, i) && OccursAt(y, z, j)
    ensures OccursAt(x, z, j + i)
  {
    forall k | 0 <= k < |x|
      ensures z[j + i + k] == x[k]
    {
      assert z[j + (i + k)] == z[j..j + |y|][i + k] == y[i + k];
      assert y[i + k] == y[i..i + |x|][k];
    }
    assert z[j + i..j + i + |x|] == x;
  }

  /** A reply names its domain (after the icon) and quotes the prompt. */
  lemma ReplyMentions(domain: string, prompt: string)
    ensures Occurs(domain, Reply(domain, prompt))
    ensures Occurs(prompt, Reply(domain, prompt))
    ensures Occurs(Catalog.Icon(domain), Reply(domain, prompt))
  {
    var icon, display, head := Catalog.Icon(domain), Catalog.Display(domain), ReplyHead(domain);
    var reply := Reply(domain, prompt);
    OccursAtStart(head, prompt, ReplyClosing);
    OccursInConcat(ReplyOpening, display, ReplyBridge);
    OccursTransitive(display, head, reply, |ReplyOpening|, 0);
    OccursInConcat(icon + " ", domain, []);
    assert icon + " " + domain + [] == display;
    OccursTransitive(domain, display, reply, |icon| + 1, |ReplyOpening|);
    OccursAtStart(icon, " ", domain);
    OccursTransitive(icon, display, reply, 0, |ReplyOpening|);
    OccursInConcat(head, prompt, ReplyClosing);
  }

  /** The two messages one submission adds: the prompt, then its reply. */
  function Exchange(domain: string, prompt: string): seq<Message> {
    [Message(User, prompt), Message(Assistant, Reply(domain, prompt))]
  }

  /** A transcript made of whole exchanges: each prompt directly followed by its reply. */
  predicate Dialogue(domain: string, t: seq<Message>)
    decreases |t|
  {
    t == [] || (|t| >= 2 && t[..2] == Exchange(domain, t[0].content) && Dialogue(domain, t[2..]))
  }

  /** Appending one more exchange to a dialogue keeps it a dialogue. */
  lemma {:induction false} DialogueExtend(domain: string, t: seq<Message>, prompt: string)
    requires Dialogue(domain, t)
    ensures Dialogue(domain, t + Exchange(domain, prompt))
    decreases |t|
  {
    var x := Exchange(domain, prompt);
    if t == [] {
      assert t + x == x;
      assert x[2..] == [];
    } else {
      DialogueExtend(domain, t[2..], prompt);
      assert (t + x)[2..] == t[2..] + x;
      assert (t + x)[..2] == t[..2];
    }
  }

  // The sidebar shows at most this many characters of a prompt before "...".
  const SummaryWidth: nat := 30
  const Ellipsis: string := "..."

  /**
   * The sidebar summary of a prompt: short prompts unchanged, longer ones cut
   * to their first SummaryWidth characters followed by an ellipsis.
   */
  function Summary(content: string): (r: string)
    ensures |r| <= SummaryWidth + |Ellipsis|
    ensures |content| <= SummaryWidth ==> r == content
    ensures |content| > SummaryWidth ==> |r| == SummaryWidth + |Ellipsis| && r[SummaryWidth..] == Ellipsis
    ensures var k := if |content| < SummaryWidth then |content| else SummaryWidth;
            k <= |r| && r[..k] == content[..k]
  {
    if |content| > SummaryWidth then content[..SummaryWidth] + Ellipsis else content
  }

  /** Summarising a summary changes nothing. */
  lemma SummaryIdempotent(content: string)
    ensures Summary(Summary(content)) == Summary(content)
  {
  }

  /** One line of the sidebar history: a 1-based position in the transcript and a summary. */
  datatype Entry = Entry(number: nat, summary: string)

  /**
   * The sidebar history of a transcript: one entry per user message, in order,
   * numbered by its position among all messages (assistant replies included).
   */
  function Entries(t: seq<Message>): (r: seq<Entry>)
    ensures |r| <= |t|
  {
    if t == [] then []
    else
      var last := t[|t| - 1];
      Entries(t[..|t| - 1]) + if last.role == User then [Entry(|t|, Summary(last.content))] else []
  }

  /** Every entry points at a user message of the transcript and carries its summary. */
  lemma {:induction false} EntriesSound(t: seq<Message>, j: nat)
    requires j < |Entries(t)|
    ensures var e := Entries(t)[j];
            1 <= e.number <= |t| && t[e.number - 1].role == User
            && e.summary == Summary(t[e.number - 1].content)
  {
    var init := t[..|t| - 1];
    if j < |Entries(init)| {
      EntriesSound(init, j);
      assert Entries(t)[j] == Entries(init)[j];
    }
  }

  /** Every user message of the transcript has its entry. */
  lemma {:induction false} EntriesComplete(t: seq<Message>, k: nat)
    requires k < |t| && t[k].role == User
    ensures Entry(k + 1, Summary(t[k].content)) in Entries(t)
  {
    var init := t[..|t| - 1];
    if k < |t| - 1 {
      EntriesComplete(init, k);
      assert init[k] == t[k];
    }
  }

  /** Entries are listed in transcript order. */
  lemma {:induction false} EntriesIncreasing(t: seq<Message>)
    ensures forall i, j :: 0 <= i < j < |Entries(t)| ==> Entries(t)[i].number < Entries(t)[j].number
  {
    if t != [] {
      var init := t[..|t| - 1];
      EntriesIncreasing(init);
      forall i | 0 <= i < |Entries(init)|
        ensures Entries(init)[i].number < |t|
      {
        EntriesSound(init, i);
      }
    }
  }

  /** Listing a transcript that grows by messages only adds entries behind the old ones. */
  lemma {:induction false} EntriesExtend(t: seq<Message>, more: seq<Message>)
    ensures Entries(t) <= Entries(t + more)
    decreases |more|
  {
    if more == [] {
      assert t + more == t;
    } else {
      var front := more[..|more| - 1];
      EntriesExtend(t, front);
      assert (t + more)[..|t + more| - 1] == t + front;
    }
  }

  /**
   * The sidebar loop: walks the transcript with its positions and lists each
   * user message's summary under its 1-based number.
   */
  method ListHistory(t: seq<Message>) returns (entries: seq<Entry>)
    ensures entries == Entries(t)
  {
    entries := [];
    var i := 0;
    while i < |t|
      invariant 0 <= i <= |t|
      invariant entries == Entries(t[..i])
    {
      var msg := t[i];
      if msg.role == User {
        entries := entries + [Entry(i + 1, Summary(msg.content))];
      }
      assert t[..i + 1][..i] == t[..i];
      i := i + 1;
    }
    assert t[..|t|] == t;
  }
}
