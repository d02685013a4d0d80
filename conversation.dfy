/** The per-session chat history both assistants keep: each exchange appends the user's message and then
    the assistant's reply, and the session keeps only its last 20 entries. */
module Conversation {
  import opened Common

  /** The most entries a session keeps. */
  const HistoryLimit: nat := 20

  /** The most earlier entries the enhanced assistant sends along with a new message. */
  const PromptWindow: nat := 10

  /** One history entry; `R` is what the assistant's reply is modelled as. */
  datatype Entry<R> = UserEntry(content: string) | AssistantEntry(reply: R)

  /** User and assistant entries alternate, starting with a user entry and ending with a reply. */
  predicate Alternating<R>(h: seq<Entry<R>>) {
    && |h| % 2 == 0
    && forall i :: 0 <= i < |h| ==> (h[i].UserEntry? <==> i % 2 == 0)
  }

  /** The session's entries before a call: `conversation_history` gains an empty list for a new session. */
  function SessionEntries<R>(history: map<string, seq<Entry<R>>>, session: string): (h: seq<Entry<R>>)
    ensures session in history ==> h == history[session]
    ensures session !in history ==> h == []
  {
    if session in history then history[session] else []
  }

  /** Append one exchange and keep the last 20 entries. */
  function AppendExchange<R>(h: seq<Entry<R>>, message: string, reply: R): (r: seq<Entry<R>>)
    ensures |r| <= HistoryLimit && |r| >= 2
    ensures r[|r| - 2] == UserEntry(message) && r[|r| - 1] == AssistantEntry(reply)
  {
    Last(h + [UserEntry(message), AssistantEntry(reply)], HistoryLimit)
  }

  /** Trimming the window before appending loses nothing: a session always holds the last 20 entries of
      everything ever said in it. */
  lemma {:induction false} WindowOfWindow<R>(full: seq<Entry<R>>, message: string, reply: R)
    ensures AppendExchange(Last(full, HistoryLimit), message, reply)
            == Last(full + [UserEntry(message), AssistantEntry(reply)], HistoryLimit)
  {
    var x, y := UserEntry(message), AssistantEntry(reply);
    LastOfLast(full, x, HistoryLimit);
    LastOfLast(full + [x], y, HistoryLimit);
    assert Last(full, HistoryLimit) + [x, y] == Last(full, HistoryLimit) + [x] + [y];
    assert full + [x, y] == full + [x] + [y];
  }

  /** Because the limit is even, an alternating session stays alternating after any exchange. */
  lemma {:induction false} AppendExchangeAlternates<R>(h: seq<Entry<R>>, message: string, reply: R)
    requires Alternating(h)
    ensures Alternating(AppendExchange(h, message, reply))
  {
    var g := h + [UserEntry(message), AssistantEntry(reply)];
    forall i | 0 <= i < |g| ensures g[i].UserEntry? <==> i % 2 == 0 {
      if i < |h| {
        assert g[i] == h[i];
      } else if i == |h| {
        assert g[i] == UserEntry(message);
      } else {
        assert g[i] == AssistantEntry(reply);
      }
    }
    assert Alternating(g);
    var d := |g| - |Last(g, HistoryLimit)|;
    assert d == 0 || d == |g| - HistoryLimit;
    AlternatingSuffix(g, d);
  }

  /** Dropping an even number of entries from the front keeps a sequence alternating. */
  lemma AlternatingSuffix<R>(g: seq<Entry<R>>, d: nat)
    requires Alternating(g) && d <= |g| && d % 2 == 0
    ensures Alternating(g[d..])
  {
    var r := g[d..];
    forall i | 0 <= i < |r| ensures r[i].UserEntry? <==> i % 2 == 0 {
      assert r[i] == g[d + i];
      EvenShift(d, i);
    }
  }

  lemma EvenShift(d: nat, i: nat)
    requires d % 2 == 0
    ensures (d + i) % 2 == i % 2
  {
  }

  /** What the enhanced assistant sends along: at most the last 10 entries of the session. */
  function RecentEntries<R>(h: seq<Entry<R>>): (r: seq<Entry<R>>)
    ensures |r| <= PromptWindow && |r| <= |h|
    ensures r == h[|h| - |r|..]
    ensures |h| <= PromptWindow ==> r == h
  {
    Last(h, PromptWindow)
  }

  /** Each session shows the last 20 entries of everything said in it, alternating user and assistant. */
  ghost predicate SessionsWindowed<R>(shown: map<string, seq<Entry<R>>>, said: map<string, seq<Entry<R>>>) {
    && shown.Keys == said.Keys
    && forall s :: s in shown ==> Windowed(shown[s], said[s])
  }

  ghost predicate Windowed<R>(shown: seq<Entry<R>>, said: seq<Entry<R>>) {
    shown == Last(said, HistoryLimit) && Alternating(shown)
  }

  /** Recording an exchange in one session keeps every session windowed. */
  lemma ExchangeKeepsWindowed<R>(shown: map<string, seq<Entry<R>>>, said: map<string, seq<Entry<R>>>,
                                 session: string, message: string, reply: R)
    requires SessionsWindowed(shown, said)
    ensures SessionsWindowed(
              shown[session := AppendExchange(SessionEntries(shown, session), message, reply)],
              said[session := SessionEntries(said, session) + [UserEntry(message), AssistantEntry(reply)]])
  {
    var h := SessionEntries(shown, session);
    var full := SessionEntries(said, session);
    if session in shown {
      assert Windowed(shown[session], said[session]);
    } else {
      assert Windowed<R>([], []);
    }
    ExchangeWindowed(h, full, message, reply);
    UpdateKeepsWindowed(shown, said, session, AppendExchange(h, message, reply),
                        full + [UserEntry(message), AssistantEntry(reply)]);
  }

  lemma ExchangeWindowed<R>(h: seq<Entry<R>>, full: seq<Entry<R>>, message: string, reply: R)
    requires Windowed(h, full)
    ensures Windowed(AppendExchange(h, message, reply), full + [UserEntry(message), AssistantEntry(reply)])
  {
    WindowOfWindow(full, message, reply);
    AppendExchangeAlternates(h, message, reply);
  }

  lemma UpdateKeepsWindowed<R>(shown: map<string, seq<Entry<R>>>, said: map<string, seq<Entry<R>>>,
                               session: string, h: seq<Entry<R>>, full: seq<Entry<R>>)
    requires SessionsWindowed(shown, said) && Windowed(h, full)
    ensures SessionsWindowed(shown[session := h], said[session := full])
  {
    var shown', said' := shown[session := h], said[session := full];
    assert shown'.Keys == shown.Keys + {session};
    assert said'.Keys == said.Keys + {session};
    forall s | s in shown' ensures Windowed(shown'[s], said'[s]) {
      if s != session {
        assert shown'[s] == shown[s] && said'[s] == said[s];
      }
    }
  }
}
