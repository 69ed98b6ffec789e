/**
 The conversation log of the chatbot and the text it renders from the most
 recent part of that log (the "context window").

 A message of the log is a role ("user" or "model") and the text of its one
 part. The renderer labels each message of the window with "User" or "AI"
 and puts one message per line under a fixed header.
 */
module Conversation {

  const UserRole: string := "user"
  const ModelRole: string := "model"

  /** How many of the most recent messages are rendered. */
  const ContextWindow: nat := 6

  const StartOfConversation: string := "This is the start of the conversation."
  const Header: string := "Previous conversation:\n"

  /** One entry of the log: `{"role": role, "parts": [text]}`. */
  datatype Msg = Msg(role: string, text: string)

  function Min(a: int, b: int): int { if a <= b then a else b }

  /** Python's `s[start:]`, where a negative `start` counts from the end and
      an index out of range is clamped to the ends of the list. */
  function SliceFrom<T>(s: seq<T>, start: int): (r: seq<T>)
    ensures start < 0 ==> |r| == Min(-start, |s|)
    ensures 0 <= start ==> |r| == if start <= |s| then |s| - start else 0
    ensures r == s[|s| - |r|..]
  {
    var i := if start < 0 then (if |s| + start < 0 then 0 else |s| + start)
             else (if start <= |s| then start else |s|);
    s[i..]
  }

  /** The messages that are rendered: `history[-6:]`. */
  function Window(history: seq<Msg>): (w: seq<Msg>)
    ensures |w| == Min(ContextWindow, |history|)
    ensures w == history[|history| - |w|..]
  {
    SliceFrom(history, -(ContextWindow as int))
  }

  /** "User" for the user role and "AI" for every other role. */
  function Label(role: string): string
  {
    if role == UserRole then "User" else "AI"
  }

  /** The line rendered for one message. */
  function Line(m: Msg): string
  {
    Label(m.role) + ": " + m.text + "\n"
  }

  /** The lines of `ms`, in order; the last message is rendered last. */
  function RenderLines(ms: seq<Msg>): string
  {
    if ms == [] then "" else RenderLines(ms[..|ms| - 1]) + Line(ms[|ms| - 1])
  }

  /** The context text built from the log: a fixed sentence for an empty log,
      otherwise the header followed by the lines of the window. */
  function FormatHistory(history: seq<Msg>): (r: string)
    ensures history == [] <==> r == StartOfConversation
    ensures history != [] ==> Header <= r
  {
    if history == [] then StartOfConversation
    else
      var r := Header + RenderLines(Window(history));
      assert r[0] == 'P' != StartOfConversation[0];
      r
  }

  /** Rendering a concatenation renders each part in turn. */
  lemma {:induction false} RenderLinesAppend(a: seq<Msg>, b: seq<Msg>)
    ensures RenderLines(a + b) == RenderLines(a) + RenderLines(b)
    decreases |b|
  {
    if b == [] {
      assert a + b == a;
    } else {
      var b', last := b[..|b| - 1], b[|b| - 1];
      assert (a + b)[..|a + b| - 1] == a + b';
      calc {
        RenderLines(a + b);
        RenderLines(a + b') + Line(last);
        { RenderLinesAppend(a, b'); }
        RenderLines(a) + RenderLines(b') + Line(last);
        RenderLines(a) + RenderLines(b);
      }
    }
  }

  lemma SplitAt<T>(s: seq<T>, i: int)
    requires 0 <= i < |s|
    ensures s == s[..i + 1] + s[i + 1..]
    ensures s[..i + 1] == s[..i] + [s[i]]
  {
  }

  /** The `i`-th message is rendered as its own line, after the lines of the
      messages before it and before the lines of the messages after it. */
  lemma RenderLinesAt(ms: seq<Msg>, i: int)
    requires 0 <= i < |ms|
    ensures RenderLines(ms) == RenderLines(ms[..i]) + Line(ms[i]) + RenderLines(ms[i + 1..])
  {
    var before, m, after := ms[..i], ms[i], ms[i + 1..];
    var upTo := ms[..i + 1];
    SplitAt(ms, i);
    assert upTo[..|upTo| - 1] == before;
    RenderLinesAppend(upTo, after);
  }

  /** Number of occurrences of `c` in `s`. */
  function Count(c: char, s: string): nat
  {
    if s == [] then 0 else (if s[0] == c then 1 else 0) + Count(c, s[1..])
  }

  lemma {:induction false} CountAppend(c: char, s: string, t: string)
    ensures Count(c, s + t) == Count(c, s) + Count(c, t)
  {
    if s == [] {
      assert s + t == t;
    } else {
      assert (s + t)[1..] == s[1..] + t;
      CountAppend(c, s[1..], t);
    }
  }

  lemma {:induction false} CountAbsent(c: char, s: string)
    requires c !in s
    ensures Count(c, s) == 0
  {
    if s != [] {
      CountAbsent(c, s[1..]);
    }
  }

  /** A message whose text is a single line is rendered as exactly one line. */
  lemma LineIsOneLine(m: Msg)
    requires '\n' !in m.text
    ensures Count('\n', Line(m)) == 1
  {
    var l := Label(m.role);
    assert '\n' !in l;
    CountAbsent('\n', l);
    CountAbsent('\n', ": ");
    CountAbsent('\n', m.text);
    CountAppend('\n', l, ": ");
    CountAppend('\n', l + ": ", m.text);
    CountAppend('\n', l + ": " + m.text, "\n");
  }

  /** Single-line messages give one rendered line each. */
  lemma {:induction false} RenderLinesCount(ms: seq<Msg>)
    requires forall i :: 0 <= i < |ms| ==> '\n' !in ms[i].text
    ensures Count('\n', RenderLines(ms)) == |ms|
    decreases |ms|
  {
    if ms != [] {
      var init := ms[..|ms| - 1];
      RenderLinesCount(init);
      LineIsOneLine(ms[|ms| - 1]);
      CountAppend('\n', RenderLines(init), Line(ms[|ms| - 1]));
    }
  }

  /** For a non-empty log of single-line messages the context text is the
      header followed by exactly one line for each of the last
      min(6, |history|) messages. */
  lemma FormatHistoryLineCount(history: seq<Msg>)
    requires history != []
    requires forall i :: 0 <= i < |history| ==> '\n' !in history[i].text
    ensures FormatHistory(history)[..|Header|] == Header
    ensures Count('\n', FormatHistory(history)[|Header|..]) == Min(ContextWindow, |history|)
  {
    var w := Window(history);
    forall i | 0 <= i < |w| ensures '\n' !in w[i].text {
      assert w[i] == history[|history| - |w| + i];
    }
    RenderLinesCount(w);
    assert FormatHistory(history)[|Header|..] == RenderLines(w);
  }

  /** Messages older than the last six have no influence on the context text. */
  lemma FormatHistoryIgnoresOlder(older: seq<Msg>, recent: seq<Msg>)
    requires ContextWindow <= |recent|
    ensures FormatHistory(older + recent) == FormatHistory(recent)
  {
    var h := older + recent;
    assert Window(h) == Window(recent) by {
      assert h[|h| - ContextWindow..] == recent[|recent| - ContextWindow..];
    }
  }

  /** Rendering the log extended by `m`: the window ends with `m`'s line and
      carries, before it and in log order, the last min(5, |history|)
      messages of `history`. */
  lemma FormatHistoryEndsWith(history: seq<Msg>, m: Msg)
    ensures FormatHistory(history + [m])
         == Header + RenderLines(history[|history| - Min(ContextWindow - 1, |history|)..]) + Line(m)
  {
    var h := history + [m];
    var w := Window(h);
    var recent := history[|history| - Min(ContextWindow - 1, |history|)..];
    assert w[..|w| - 1] == recent && w[|w| - 1] == m;
    calc {
      FormatHistory(h);
      Header + RenderLines(w);
      Header + (RenderLines(recent) + Line(m));
    }
  }
}
