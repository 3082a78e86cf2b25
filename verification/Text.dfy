/** Cutting text at a separator and putting it together again, and trimming. */
module Text {
  /** Where c first is, or |s| if it is nowhere. */
  function IndexOfChar(s: string, c: char): (i: nat)
    ensures i <= |s| && (i < |s| ==> s[i] == c)
    ensures forall j :: 0 <= j < i ==> s[j] != c
  {
    if s == "" || s[0] == c then 0 else 1 + IndexOfChar(s[1..], c)
  }

  /** strings.Split by a separator of one character. */
  function Split(s: string, sep: char): (parts: seq<string>)
    ensures parts != []
    decreases |s|
  {
    var i := IndexOfChar(s, sep);
    if i == |s| then [s] else [s[..i]] + Split(s[i + 1..], sep)
  }

  /** strings.Join. */
  function Join(parts: seq<string>, sep: char): string {
    if parts == [] then ""
    else if |parts| == 1 then parts[0]
    else parts[0] + [sep] + Join(parts[1..], sep)
  }

  predicate AllWithout(parts: seq<string>, sep: char) {
    forall p :: p in parts ==> sep !in p
  }

  function Map<T, U>(f: T -> U, s: seq<T>): (r: seq<U>)
    ensures |r| == |s| && forall i :: 0 <= i < |s| ==> r[i] == f(s[i])
  {
    seq(|s|, i requires 0 <= i < |s| => f(s[i]))
  }

  lemma MapSnoc<T, U>(f: T -> U, s: seq<T>, x: T)
    ensures Map(f, s + [x]) == Map(f, s) + [f(x)]
  {
  }

  lemma IndexAfterHead(head: string, sep: char, tail: string)
    requires sep !in head
    ensures IndexOfChar(head + [sep] + tail, sep) == |head|
  {
    var s := head + [sep] + tail;
    assert s[|head|] == sep;
    assert forall j :: 0 <= j < |head| ==> s[j] == head[j];
  }

  lemma {:induction false} SplitWithout(s: string, sep: char)
    ensures AllWithout(Split(s, sep), sep)
    decreases |s|
  {
    var i := IndexOfChar(s, sep);
    if i < |s| {
      SplitWithout(s[i + 1..], sep);
    }
  }

  lemma SplitOne(s: string, sep: char)
    requires sep !in s
    ensures Split(s, sep) == [s]
  {
    assert IndexOfChar(s, sep) == |s|;
  }

  lemma SplitCons(head: string, sep: char, tail: string)
    requires sep !in head
    ensures Split(head + [sep] + tail, sep) == [head] + Split(tail, sep)
  {
    var s := head + [sep] + tail;
    IndexAfterHead(head, sep, tail);
    assert s[..|head|] == head && s[|head| + 1..] == tail;
  }

  lemma JoinCons(head: string, parts: seq<string>, sep: char)
    requires parts != []
    ensures Join([head] + parts, sep) == head + [sep] + Join(parts, sep)
  {
    assert ([head] + parts)[1..] == parts;
  }

  /** A text around its first separator. */
  lemma CutFirst(s: string, sep: char) returns (head: string, tail: string)
    requires sep in s
    ensures s == head + [sep] + tail && sep !in head
  {
    var i := IndexOfChar(s, sep);
    head, tail := s[..i], s[i + 1..];
  }

  lemma {:induction false} JoinSplit(s: string, sep: char)
    ensures Join(Split(s, sep), sep) == s
    decreases |s|
  {
    if sep in s {
      var head, tail := CutFirst(s, sep);
      SplitCons(head, sep, tail);
      JoinCons(head, Split(tail, sep), sep);
      JoinSplit(tail, sep);
    } else {
      SplitOne(s, sep);
    }
  }

  lemma {:induction false} SplitJoin(parts: seq<string>, sep: char)
    requires parts != [] && AllWithout(parts, sep)
    ensures Split(Join(parts, sep), sep) == parts
  {
    var head, tail := parts[0], parts[1..];
    assert parts == [head] + tail;
    assert sep !in head;
    if tail == [] {
      SplitOne(head, sep);
    } else {
      JoinCons(head, tail, sep);
      SplitCons(head, sep, Join(tail, sep));
      SplitJoin(tail, sep);
    }
  }

  lemma Regroup(head: string, sep: char, tail: string, b: string)
    ensures head + [sep] + tail + [sep] + b == head + [sep] + (tail + [sep] + b)
  {
  }

  lemma SplitAppendOne(head: string, tail: string, b: string, sep: char)
    requires sep !in head && Split(tail + [sep] + b, sep) == Split(tail, sep) + Split(b, sep)
    ensures Split(head + [sep] + tail + [sep] + b, sep) == Split(head + [sep] + tail, sep) + Split(b, sep)
  {
    Regroup(head, sep, tail, b);
    SplitCons(head, sep, tail + [sep] + b);
    SplitCons(head, sep, tail);
    Prepend(head, Split(tail, sep), Split(b, sep));
  }

  lemma Prepend(head: string, a: seq<string>, b: seq<string>)
    ensures [head] + (a + b) == ([head] + a) + b
  {
  }

  /** Splitting distributes over text put together with the separator. */
  lemma {:induction false} SplitAppend(a: string, b: string, sep: char)
    ensures Split(a + [sep] + b, sep) == Split(a, sep) + Split(b, sep)
    decreases |a|
  {
    if sep in a {
      var head, tail := CutFirst(a, sep);
      SplitAppend(tail, b, sep);
      SplitAppendOne(head, tail, b, sep);
    } else {
      SplitOne(a, sep);
      SplitCons(a, sep, b);
    }
  }

  /** The characters strings.TrimSpace removes. */
  predicate IsSpace(c: char) {
    || '\t' <= c <= '\r' || c == ' ' || c == '\U{0085}' || c == '\U{00A0}' || c == '\U{1680}'
    || '\U{2000}' <= c <= '\U{200A}' || c == '\U{2028}' || c == '\U{2029}' || c == '\U{202F}'
    || c == '\U{205F}' || c == '\U{3000}'
  }

  function TrimLeft(s: string): string {
    if s != "" && IsSpace(s[0]) then TrimLeft(s[1..]) else s
  }

  function TrimRight(s: string): string {
    if s != "" && IsSpace(s[|s| - 1]) then TrimRight(s[..|s| - 1]) else s
  }

  function TrimSpace(s: string): string {
    TrimRight(TrimLeft(s))
  }

  predicate Trimmed(s: string) {
    s == "" || (!IsSpace(s[0]) && !IsSpace(s[|s| - 1]))
  }

  lemma {:induction false} TrimRightTrimmed(s: string)
    requires s == "" || !IsSpace(s[0])
    ensures Trimmed(TrimRight(s))
  {
    if s != "" && IsSpace(s[|s| - 1]) {
      TrimRightTrimmed(s[..|s| - 1]);
    }
  }

  lemma {:induction false} TrimLeftStart(s: string)
    ensures TrimLeft(s) == "" || !IsSpace(TrimLeft(s)[0])
  {
    if s != "" && IsSpace(s[0]) {
      TrimLeftStart(s[1..]);
    }
  }

  /** Trimming leaves a text alone if and only if it is trimmed. */
  lemma TrimSpaceIff(s: string)
    ensures TrimSpace(s) == s <==> Trimmed(s)
  {
    TrimLeftStart(s);
    TrimRightTrimmed(TrimLeft(s));
  }
}
