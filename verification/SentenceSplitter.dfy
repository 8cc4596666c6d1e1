/**
 Incremental text to speech: text arrives in messages, complete sentences leave as soon as
 they are complete, and what is left over waits in a buffer.
 */
module SentenceSplitter {
  import opened Common

  predicate IsEnding(c: char) {
    c in {'\U{3002}', '\U{FF01}', '\U{FF1F}', '.', '!', '?', '\n'}
  }

  // ----- one text -----

  predicate NoEnding(s: string) {
    forall i :: 0 <= i < |s| ==> !IsEnding(s[i])
  }

  /** Where the first ending is; the length of the text when it has none. */
  function EndAt(s: string): (i: nat)
    ensures i <= |s| && NoEnding(s[..i])
    ensures i < |s| ==> IsEnding(s[i])
  {
    if s == "" || IsEnding(s[0]) then 0
    else
      var i := 1 + EndAt(s[1..]);
      assert s[..i] == [s[0]] + s[1..][..i - 1];
      i
  }

  /** The stretches of a text that end with an ending, cut at every one of them. */
  function Segments(s: string): seq<string>
    decreases |s|
  {
    var i := EndAt(s);
    if i == |s| then [] else [s[..i + 1]] + Segments(s[i + 1..])
  }

  /** What follows the last ending. */
  function Rest(s: string): (r: string)
    ensures NoEnding(r)
    decreases |s|
  {
    var i := EndAt(s);
    if i == |s| then (assert s[..i] == s; s) else Rest(s[i + 1..])
  }

  /** A stretch with an ending at its end and nowhere else. */
  predicate EndsOnce(t: string) {
    t != "" && EndAt(t) == |t| - 1
  }

  lemma {:induction false} SegmentsEndOnce(s: string, k: nat)
    requires k < |Segments(s)|
    ensures EndsOnce(Segments(s)[k])
    decreases |s|
  {
    hide IsEnding;
    hide NoEnding;
    var i := EndAt(s);
    if k == 0 {
      var t := s[..i + 1];
      assert t[..i] == s[..i];
      EndIs(t, i);
    } else {
      SegmentsEndOnce(s[i + 1..], k - 1);
    }
  }

  function Trimmed(segments: seq<string>): seq<string> {
    if segments == [] then []
    else
      var t := Strip(segments[|segments| - 1]);
      Trimmed(segments[..|segments| - 1]) + (if t == "" then [] else [t])
  }

  function Sentences(s: string): seq<string> {
    Trimmed(Segments(s))
  }

  /** The place of the first ending is the only one with no ending before it. */
  lemma EndIs(s: string, i: nat)
    requires i <= |s| && NoEnding(s[..i]) && (i < |s| ==> IsEnding(s[i]))
    ensures EndAt(s) == i
  {
    hide IsEnding;
    var k := EndAt(s);
    assert forall j :: 0 <= j < k ==> !IsEnding(s[..k][j]) && s[..k][j] == s[j];
    assert forall j :: 0 <= j < i ==> !IsEnding(s[..i][j]) && s[..i][j] == s[j];
  }

  lemma EndInFront(a: string, b: string)
    requires EndAt(a) < |a|
    ensures EndAt(a + b) == EndAt(a)
  {
    hide IsEnding;
    hide NoEnding;
    var i := EndAt(a);
    assert (a + b)[..i] == a[..i];
    EndIs(a + b, i);
  }

  /** Cutting a longer text continues with what the shorter one left over. */
  lemma {:induction false} CutContinues(a: string, b: string)
    ensures Segments(a + b) == Segments(a) + Segments(Rest(a) + b)
    ensures Rest(a + b) == Rest(Rest(a) + b)
    decreases |a|
  {
    hide IsEnding;
    hide NoEnding;
    hide EndAt;
    var i := EndAt(a);
    if i < |a| {
      EndInFront(a, b);
      assert (a + b)[..i + 1] == a[..i + 1];
      assert (a + b)[i + 1..] == a[i + 1..] + b;
      CutContinues(a[i + 1..], b);
    }
  }

  lemma {:induction false} TrimmedConcat(a: seq<string>, b: seq<string>)
    ensures Trimmed(a + b) == Trimmed(a) + Trimmed(b)
    decreases |b|
  {
    if b == [] {
      assert a + b == a;
    } else {
      assert (a + b)[..|a + b| - 1] == a + b[..|b| - 1];
      TrimmedConcat(a, b[..|b| - 1]);
    }
  }

  lemma SentencesContinue(a: string, b: string)
    ensures Sentences(a + b) == Sentences(a) + Sentences(Rest(a) + b)
    ensures Rest(a + b) == Rest(Rest(a) + b)
  {
    CutContinues(a, b);
    TrimmedConcat(Segments(a), Segments(Rest(a) + b));
  }

  /** No ending so far, and one more character. */
  lemma OneMore(p: string, c: char)
    requires NoEnding(p)
    ensures Segments(p + [c]) == if IsEnding(c) then [p + [c]] else []
    ensures Rest(p + [c]) == if IsEnding(c) then "" else p + [c]
  {
    var s := p + [c];
    var i := if IsEnding(c) then |p| else |s|;
    assert NoEnding(s[..i]);
    EndIs(s, i);
    NothingCut();
    hide IsEnding;
    hide NoEnding;
    hide EndAt;
    assert s[..|s|] == s && s[|s|..] == "";
  }

  lemma NothingCut()
    ensures Segments("") == [] && Rest("") == ""
  {
  }

  /** One character more: a sentence when it ends one, else a longer rest. */
  lemma NextCharacter(p: string, c: char)
    ensures Rest(p + [c]) == if IsEnding(c) then "" else Rest(p) + [c]
    ensures Sentences(p + [c])
            == Sentences(p) + if IsEnding(c) && Strip(Rest(p) + [c]) != "" then [Strip(Rest(p) + [c])] else []
  {
    hide IsEnding;
    hide Strip;
    SentencesContinue(p, [c]);
    OneMore(Rest(p), c);
    OneTrimmed(Rest(p) + [c]);
    assert Sentences(p) + [] == Sentences(p);
  }

  /** The splitter as it runs: one pass with the start of the current stretch. */
  method SplitCompleteSentences(buffer: string) returns (sentences: seq<string>, rest: string)
    ensures sentences == Sentences(buffer) && rest == Rest(buffer)
  {
    hide IsEnding;
    hide Strip;
    hide Sentences;
    hide Rest;
    sentences := [];
    var start := 0;
    assert buffer[..0] == "";
    NothingCut();
    assert Sentences("") == [] by { NothingSaid(); }
    for i := 0 to |buffer|
      invariant start <= i
      invariant sentences == Sentences(buffer[..i]) && Rest(buffer[..i]) == buffer[start..i]
    {
      var c := buffer[i];
      assert buffer[..i + 1] == buffer[..i] + [c];
      assert buffer[start..i + 1] == buffer[start..i] + [c];
      NextCharacter(buffer[..i], c);
      if IsEnding(c) {
        var segment := Strip(buffer[start..i + 1]);
        if segment != "" {
          sentences := sentences + [segment];
        }
        start := i + 1;
      }
    }
    assert buffer[..|buffer|] == buffer;
    return sentences, buffer[start..];
  }

  lemma NothingSaid()
    ensures Sentences("") == []
  {
  }

  lemma OneTrimmed(s: string)
    ensures Trimmed([s]) == if Strip(s) == "" then [] else [Strip(s)]
    ensures Trimmed([]) == []
  {
    assert [s][..0] == [];
  }

  // ----- streams -----

  datatype Session = Session(buffer: string, sent: seq<string>)

  function Join(texts: seq<string>): string {
    if texts == [] then "" else Join(texts[..|texts| - 1]) + texts[|texts| - 1]
  }

  /** One ordinary message. */
  function Receive(s: Session, text: string): Session {
    var buffer := s.buffer + text;
    Session(Rest(buffer), s.sent + Sentences(buffer))
  }

  function Feed(texts: seq<string>): Session {
    if texts == [] then Session("", []) else Receive(Feed(texts[..|texts| - 1]), texts[|texts| - 1])
  }

  /** Streaming is batch: however the text is cut into messages, the same sentences leave and the same rest remains. */
  lemma {:induction false} StreamingIsBatch(texts: seq<string>)
    ensures Feed(texts).sent == Sentences(Join(texts)) && Feed(texts).buffer == Rest(Join(texts))
    decreases |texts|
  {
    if texts != [] {
      var front, last := texts[..|texts| - 1], texts[|texts| - 1];
      StreamingIsBatch(front);
      SentencesContinue(Join(front), last);
    }
  }

  // ----- nothing but white space is lost -----

  /** The characters that are not white space, in order. */
  function Ink(s: string): string {
    if s == "" then "" else Ink(s[..|s| - 1]) + (if IsSpace(s[|s| - 1]) then "" else [s[|s| - 1]])
  }

  lemma {:induction false} InkConcat(a: string, b: string)
    ensures Ink(a + b) == Ink(a) + Ink(b)
    decreases |b|
  {
    if b == "" {
      assert a + b == a;
    } else {
      assert (a + b)[..|a + b| - 1] == a + b[..|b| - 1];
      InkConcat(a, b[..|b| - 1]);
    }
  }

  lemma {:induction false} StripKeepsInk(s: string)
    ensures Ink(Strip(s)) == Ink(s)
    decreases |s|
  {
    if s != "" && IsSpace(s[0]) {
      StripKeepsInk(s[1..]);
      assert s == s[..1] + s[1..];
      InkConcat(s[..1], s[1..]);
      assert Ink(s[..1]) == "" by { assert s[..1][..0] == ""; }
    } else if s != "" && IsSpace(s[|s| - 1]) {
      StripKeepsInk(s[..|s| - 1]);
    }
  }

  lemma {:induction false} TrimmedKeepsInk(segments: seq<string>)
    ensures Ink(Join(Trimmed(segments))) == Ink(Join(segments))
    decreases |segments|
  {
    if segments != [] {
      var front, last := segments[..|segments| - 1], segments[|segments| - 1];
      TrimmedKeepsInk(front);
      StripKeepsInk(last);
      InkConcat(Join(front), last);
      hide Strip;
      hide IsSpace;
      if Strip(last) == "" {
        assert Trimmed(segments) == Trimmed(front);
        assert Ink(last) == "";
      } else {
        var t := Trimmed(front) + [Strip(last)];
        assert t[..|t| - 1] == Trimmed(front);
        InkConcat(Join(Trimmed(front)), Strip(last));
      }
    }
  }

  lemma NextSegment(s: string, i: nat)
    requires i == EndAt(s) < |s|
    ensures Segments(s) == [s[..i + 1]] + Segments(s[i + 1..]) && Rest(s) == Rest(s[i + 1..])
  {
    hide IsEnding;
    hide NoEnding;
    hide EndAt;
  }

  lemma LastSegment(s: string)
    requires EndAt(s) == |s|
    ensures Segments(s) == [] && Rest(s) == s
  {
    hide IsEnding;
    hide NoEnding;
    hide EndAt;
  }

  lemma {:induction false} SegmentsCover(s: string)
    ensures Join(Segments(s)) + Rest(s) == s
    decreases |s|
  {
    hide NoEnding;
    hide EndAt;
    hide Segments;
    hide Rest;
    var i := EndAt(s);
    if i == |s| {
      LastSegment(s);
    } else {
      var head, more := s[..i + 1], s[i + 1..];
      NextSegment(s, i);
      SegmentsCover(more);
      JoinFront(head, Segments(more));
      assert s == head + more;
      hide Join;
    }
  }

  lemma {:induction false} JoinFront(a: string, rest: seq<string>)
    ensures Join([a] + rest) == a + Join(rest)
    decreases |rest|
  {
    if rest == [] {
      assert [a] + rest == [a] && [a][..0] == [];
    } else {
      assert ([a] + rest)[..|rest|] == [a] + rest[..|rest| - 1];
      JoinFront(a, rest[..|rest| - 1]);
    }
  }

  /** A split loses only white space. */
  lemma SplitKeepsInk(s: string)
    ensures Ink(Join(Sentences(s))) + Ink(Rest(s)) == Ink(s)
  {
    SegmentsCover(s);
    TrimmedKeepsInk(Segments(s));
    InkConcat(Join(Segments(s)), Rest(s));
  }

  lemma {:induction false} JoinConcat(a: seq<string>, b: seq<string>)
    ensures Join(a + b) == Join(a) + Join(b)
    decreases |b|
  {
    if b == [] {
      assert a + b == a;
    } else {
      assert (a + b)[..|a + b| - 1] == a + b[..|b| - 1];
      JoinConcat(a, b[..|b| - 1]);
    }
  }

  // ----- whole sessions, with flushes -----

  datatype Message = Text(text: string) | Flush

  /** A flush sends what waits unless that is only white space, which stays. */
  function Handle(s: Session, m: Message): Session {
    match m
    case Text(text) => Receive(s, text)
    case Flush => if Strip(s.buffer) == "" then s else Session("", s.sent + [Strip(s.buffer)])
  }

  function Talk(messages: seq<Message>): Session {
    if messages == [] then Session("", []) else Handle(Talk(messages[..|messages| - 1]), messages[|messages| - 1])
  }

  function TextOf(messages: seq<Message>): string {
    if messages == [] then ""
    else TextOf(messages[..|messages| - 1]) + (if messages[|messages| - 1].Text? then messages[|messages| - 1].text
                                               else "")
  }

  lemma HandleKeepsInk(s: Session, m: Message)
    ensures var n := Handle(s, m);
            Ink(Join(n.sent)) + Ink(n.buffer)
                == Ink(Join(s.sent)) + Ink(s.buffer) + (if m.Text? then Ink(m.text) else "")
  {
    hide Strip;
    hide Sentences;
    hide Rest;
    hide IsSpace;
    match m {
      case Text(text) =>
        var buffer := s.buffer + text;
        SplitKeepsInk(buffer);
        InkConcat(s.buffer, text);
        JoinConcat(s.sent, Sentences(buffer));
        InkConcat(Join(s.sent), Join(Sentences(buffer)));
        assert Ink(Join(s.sent)) + (Ink(s.buffer) + Ink(text)) == Ink(Join(s.sent)) + Ink(s.buffer) + Ink(text);
        assert Ink(Join(s.sent)) + Ink(Join(Sentences(buffer))) + Ink(Rest(buffer))
            == Ink(Join(s.sent)) + (Ink(Join(Sentences(buffer))) + Ink(Rest(buffer)));
      case Flush =>
        StripKeepsInk(s.buffer);
        if Strip(s.buffer) != "" {
          var sent := s.sent + [Strip(s.buffer)];
          assert sent[..|sent| - 1] == s.sent;
          InkConcat(Join(s.sent), Strip(s.buffer));
        }
    }
  }

  /** Over every session, flushes included, what was sent and what waits is the text received, up to white space. */
  lemma {:induction false} SessionKeepsInk(messages: seq<Message>)
    ensures Ink(Join(Talk(messages).sent)) + Ink(Talk(messages).buffer) == Ink(TextOf(messages))
    decreases |messages|
  {
    if messages != [] {
      var front, last := messages[..|messages| - 1], messages[|messages| - 1];
      SessionKeepsInk(front);
      HandleKeepsInk(Talk(front), last);
      InkConcat(TextOf(front), if last.Text? then last.text else "");
    }
  }

  /** The buffer of one connection. */
  class Connection {
    var buffer: string
    var sent: seq<string>

    constructor ()
      ensures buffer == "" && sent == []
    {
      buffer, sent := "", [];
    }

    method OnMessage(m: Message)
      modifies this
      ensures Session(buffer, sent) == Handle(old(Session(buffer, sent)), m)
    {
      match m {
        case Flush =>
          var waiting := Strip(buffer);
          if waiting != "" {
            sent := sent + [waiting];
            buffer := "";
          }
        case Text(text) =>
          buffer := buffer + text;
          var ready, remain := SplitCompleteSentences(buffer);
          buffer := remain;
          for i := 0 to |ready|
            invariant sent == old(sent) + ready[..i] && buffer == remain
          {
            sent := sent + [ready[i]];
          }
      }
    }
  }
}
