/** Escaping of closing tags in third-party text (`escape_closers` of `src/research/agent_loop/result.rs`). */
module Containers {
  import opened Prelude

  function Lower(c: char): char {
    if 'A' <= c <= 'Z' then (c as int + 32) as char else c
  }

  predicate EqIgnoreCase(a: string, b: string) {
    |a| == |b| && forall i :: 0 <= i < |a| ==> Lower(a[i]) == Lower(b[i])
  }

  const PAGE_TAG := "page"
  const HIT_TAG := "hit"

  predicate StartsWithTag(text: string, tag: string) {
    |tag| <= |text| && EqIgnoreCase(text[..|tag|], tag)
  }

  predicate StartsWithATag(text: string) {
    StartsWithTag(text, PAGE_TAG) || StartsWithTag(text, HIT_TAG)
  }

  /** Whether `</page` or `</hit`, in any letter case, starts at `at`. */
  predicate IsCloser(text: string, at: nat) {
    at + 1 < |text| && text[at] == '<' && text[at + 1] == '/' && StartsWithATag(text[at + 2..])
  }

  /** A backslash after the `<` of every closer, and nothing else. */
  function Escaped(text: string): string {
    if text == "" then ""
    else (if IsCloser(text, 0) then "<\\" else [text[0]]) + Escaped(text[1..])
  }

  // ----- The scan -----

  /** The first `</`, or the length when there is none. */
  function FindClose(text: string): (at: nat)
    ensures at <= |text|
    ensures at < |text| ==> at + 1 < |text| && text[at] == '<' && text[at + 1] == '/'
  {
    if text == "" then 0
    else if |text| >= 2 && text[0] == '<' && text[1] == '/' then 0
    else 1 + FindClose(text[1..])
  }

  lemma {:induction false} CopiedUpToClose(text: string)
    ensures Escaped(text) == text[..FindClose(text)] + Escaped(text[FindClose(text)..])
  {
    if text != "" && FindClose(text) > 0 {
      var at := FindClose(text[1..]);
      CopiedUpToClose(text[1..]);
      assert text[..1 + at] == [text[0]] + text[1..][..at];
      assert text[1 + at..] == text[1..][at..];
      ConcatAssociates([text[0]], text[1..][..at], Escaped(text[1 + at..]));
    } else {
      assert text[..0] == "" && text[0..] == text;
      assert "" + Escaped(text) == Escaped(text);
    }
  }

  lemma CloseEscaped(rest: string)
    requires |rest| >= 2 && rest[0] == '<' && rest[1] == '/'
    ensures Escaped(rest) == (if StartsWithATag(rest[2..]) then "<\\/" else "</") + Escaped(rest[2..])
  {
    assert rest[1..][0] == '/' && rest[1..][1..] == rest[2..];
    assert Escaped(rest[1..]) == "/" + Escaped(rest[2..]);
    var open := if StartsWithATag(rest[2..]) then "<\\" else "<";
    assert [rest[0]] == "<";
    ConcatAssociates(open, "/", Escaped(rest[2..]));
    assert open + "/" == if StartsWithATag(rest[2..]) then "<\\/" else "</";
  }

  method EscapeClosers(text: string) returns (out: string)
    ensures out == Escaped(text)
  {
    hide Escaped, StartsWithATag;
    out := "";
    var rest := text;
    var at := FindClose(rest);
    while at < |rest|
      invariant at == FindClose(rest)
      invariant out + Escaped(rest) == Escaped(text)
      decreases |rest|
    {
      var after := rest[at + 2..];
      ghost var before := out;
      ghost var mark := if StartsWithATag(after) then "<\\/" else "</";
      OneClose(rest, at, mark);
      Reassociate(out, rest[..at], mark, Escaped(after));
      out := out + rest[..at + 1];
      if StartsWithATag(after) {
        out := out + "\\";
      }
      out := out + "/";
      assert rest[..at + 1] == rest[..at] + "<";
      assert out == before + rest[..at] + mark;
      rest := after;
      at := FindClose(rest);
    }
    CopiedUpToClose(rest);
    NothingEscaped();
    assert rest[..|rest|] == rest && rest[|rest|..] == "" && rest + "" == rest;
    out := out + rest;
  }

  lemma NothingEscaped()
    ensures Escaped("") == ""
  {
  }

  /** The text up to the first `</`, then that with its mark, then the rest. */
  lemma OneClose(rest: string, at: nat, mark: string)
    requires at == FindClose(rest) < |rest|
    requires mark == if StartsWithATag(rest[at + 2..]) then "<\\/" else "</"
    ensures Escaped(rest) == rest[..at] + (mark + Escaped(rest[at + 2..]))
  {
    hide Escaped, StartsWithATag;
    CopiedUpToClose(rest);
    CloseEscaped(rest[at..]);
    assert rest[at..][2..] == rest[at + 2..];
  }

  lemma Reassociate(a: string, b: string, c: string, d: string)
    ensures a + (b + (c + d)) == a + b + c + d
  {
  }

  // ----- No closer is left -----

  /** Up to the first `<` the escaped text is the text. */
  lemma {:induction false} HeadCopied(text: string, n: nat)
    requires n <= |Escaped(text)| && '<' !in Escaped(text)[..n]
    ensures n <= |text| && text[..n] == Escaped(text)[..n]
  {
    if n > 0 {
      assert Escaped(text)[0] == text[0];
      assert Escaped(text)[0] == Escaped(text)[..n][0];
      assert Escaped(text)[1..] == Escaped(text[1..]);
      assert Escaped(text)[..n] == [text[0]] + Escaped(text[1..])[..n - 1];
      HeadCopied(text[1..], n - 1);
      assert text[..n] == [text[0]] + text[1..][..n - 1];
    }
  }

  lemma TagHasNoOpener(head: string, tag: string)
    requires EqIgnoreCase(head, tag) && (tag == PAGE_TAG || tag == HIT_TAG)
    ensures '<' !in head
  {
    forall i | 0 <= i < |head|
      ensures head[i] != '<'
    {
      assert Lower(head[i]) == Lower(tag[i]);
    }
  }

  lemma TagCopied(text: string)
    requires StartsWithATag(Escaped(text))
    ensures StartsWithATag(text)
  {
    var tag := if StartsWithTag(Escaped(text), PAGE_TAG) then PAGE_TAG else HIT_TAG;
    TagHasNoOpener(Escaped(text)[..|tag|], tag);
    HeadCopied(text, |tag|);
  }

  /** The escaped text holds no `</page` or `</hit` in any letter case, wherever one looks. */
  lemma {:induction false} NoCloserLeft(text: string, at: nat)
    ensures !IsCloser(Escaped(text), at)
  {
    hide StartsWithATag;
    if text != "" {
      var escaped, tail := Escaped(text), Escaped(text[1..]);
      if IsCloser(text, 0) {
        assert escaped == "<\\" + tail;
        if at >= 2 {
          NoCloserLeft(text[1..], at - 2);
          ShiftedCloser(escaped, "<\\", tail, at);
        }
      } else {
        assert escaped == [text[0]] + tail;
        if at >= 1 {
          NoCloserLeft(text[1..], at - 1);
          ShiftedCloser(escaped, [text[0]], tail, at);
        } else if IsCloser(escaped, 0) {
          assert escaped[1] == tail[0] == text[1] == '/';
          assert !IsCloser(text[1..], 0);
          assert tail == ['/'] + Escaped(text[1..][1..]);
          assert escaped[2..] == Escaped(text[2..]) by { assert text[1..][1..] == text[2..]; }
          TagCopied(text[2..]);
          assert false;
        }
      }
    }
  }

  lemma ShiftedCloser(whole: string, head: string, tail: string, at: nat)
    requires whole == head + tail && |head| <= at
    ensures IsCloser(whole, at) <==> IsCloser(tail, at - |head|)
  {
    if at + 1 < |whole| {
      assert whole[at + 2..] == tail[at - |head| + 2..];
    }
  }

  // ----- What was inserted -----

  function CloserCount(text: string): nat {
    if text == "" then 0 else (if IsCloser(text, 0) then 1 else 0) + CloserCount(text[1..])
  }

  /** Which characters of the escaped text were inserted. */
  function Inserted(text: string): seq<bool> {
    if text == "" then []
    else (if IsCloser(text, 0) then [false, true] else [false]) + Inserted(text[1..])
  }

  function Without(text: string, marks: seq<bool>): string
    requires |text| == |marks|
  {
    if text == "" then "" else (if marks[0] then "" else [text[0]]) + Without(text[1..], marks[1..])
  }

  /** The escaped text is as long as its marks and longer than the text by its closers. */
  lemma {:induction false} GrowthCountsClosers(text: string)
    ensures |Inserted(text)| == |Escaped(text)| == |text| + CloserCount(text)
  {
    if text != "" {
      GrowthCountsClosers(text[1..]);
    }
  }

  lemma WithoutKept(c: char, text: string, marks: seq<bool>)
    requires |text| == |marks|
    ensures Without([c] + text, [false] + marks) == [c] + Without(text, marks)
    ensures Without([c] + text, [true] + marks) == Without(text, marks)
  {
    assert ([c] + text)[1..] == text;
    assert ([false] + marks)[1..] == marks && ([true] + marks)[1..] == marks;
    assert "" + Without(text, marks) == Without(text, marks);
  }

  lemma WithoutInserted(c: char, tail: string, marks: seq<bool>)
    requires |tail| == |marks|
    ensures Without("<\\" + tail, [false, true] + marks) == "<" + Without(tail, marks)
    ensures Without([c] + tail, [false] + marks) == [c] + Without(tail, marks)
  {
    assert "<\\" + tail == ['<'] + (['\\'] + tail) && [false, true] + marks == [false] + ([true] + marks);
    WithoutKept('\\', tail, marks);
    WithoutKept('<', ['\\'] + tail, [true] + marks);
    WithoutKept(c, tail, marks);
  }

  /** Deleting the inserted characters gives the text back. */
  lemma {:induction false} DeletingInsertedRestores(text: string)
    ensures |Inserted(text)| == |Escaped(text)|
    ensures Without(Escaped(text), Inserted(text)) == text
  {
    GrowthCountsClosers(text);
    if text != "" {
      hide Without, CloserCount, StartsWithATag;
      GrowthCountsClosers(text[1..]);
      DeletingInsertedRestores(text[1..]);
      WithoutInserted(text[0], Escaped(text[1..]), Inserted(text[1..]));
      assert text == [text[0]] + text[1..];
    }
  }

  /** Every inserted character is a backslash. */
  lemma {:induction false} OnlyBackslashesInserted(text: string, i: nat)
    requires i < |Escaped(text)| == |Inserted(text)|
    ensures Inserted(text)[i] ==> Escaped(text)[i] == '\\'
  {
    var head := if IsCloser(text, 0) then 2 else 1;
    GrowthCountsClosers(text[1..]);
    if i >= head {
      OnlyBackslashesInserted(text[1..], i - head);
    }
  }

  lemma PlainStep(c: char, rest: string)
    requires !IsCloser([c] + rest, 0)
    ensures Escaped([c] + rest) == [c] + Escaped(rest)
  {
    assert ([c] + rest)[1..] == rest;
  }

  /** The output alone does not tell an inserted backslash from one the text already had. */
  lemma EscapedIsNotInjective(after: string)
    requires StartsWithATag(after)
    ensures Escaped(['<'] + (['/'] + after)) == Escaped(['<'] + (['\\'] + (['/'] + after)))
  {
    hide StartsWithATag, Escaped;
    var text := ['<'] + (['/'] + after);
    assert text[2..] == after;
    CloseEscaped(text);
    PlainStep('/', after);
    PlainStep('\\', ['/'] + after);
    PlainStep('<', ['\\'] + (['/'] + after));
    assert ['<'] + (['\\'] + (['/'] + Escaped(after))) == "<\\/" + Escaped(after);
  }

  // ----- Closers, letter by letter -----

  /** `</page` or `</hit` stands at a place, in any letter case. */
  predicate ClosesAt(text: string, at: int) {
    && 0 <= at && at + 5 <= |text| && text[at] == '<' && text[at + 1] == '/'
    && ((at + 6 <= |text| && text[at + 2] in {'p', 'P'} && text[at + 3] in {'a', 'A'} && text[at + 4] in {'g', 'G'}
         && text[at + 5] in {'e', 'E'})
        || (text[at + 2] in {'h', 'H'} && text[at + 3] in {'i', 'I'} && text[at + 4] in {'t', 'T'}))
  }

  lemma {:induction false} LowerTells(c: char)
    ensures Lower(c) == 'p' <==> c in {'p', 'P'}
    ensures Lower(c) == 'a' <==> c in {'a', 'A'}
    ensures Lower(c) == 'g' <==> c in {'g', 'G'}
    ensures Lower(c) == 'e' <==> c in {'e', 'E'}
    ensures Lower(c) == 'h' <==> c in {'h', 'H'}
    ensures Lower(c) == 'i' <==> c in {'i', 'I'}
    ensures Lower(c) == 't' <==> c in {'t', 'T'}
  {
  }

  lemma {:induction false} TagsTell(text: string)
    ensures StartsWithTag(text, PAGE_TAG) <==>
              |text| >= 4 && text[0] in {'p', 'P'} && text[1] in {'a', 'A'} && text[2] in {'g', 'G'}
              && text[3] in {'e', 'E'}
    ensures StartsWithTag(text, HIT_TAG) <==>
              |text| >= 3 && text[0] in {'h', 'H'} && text[1] in {'i', 'I'} && text[2] in {'t', 'T'}
  {
    assert |PAGE_TAG| == 4 && |HIT_TAG| == 3;
    assert Lower('p') == 'p' && Lower('a') == 'a' && Lower('g') == 'g' && Lower('e') == 'e';
    assert Lower('h') == 'h' && Lower('i') == 'i' && Lower('t') == 't';
    forall c: char
      ensures Lower(c) == 'p' <==> c in {'p', 'P'}
      ensures Lower(c) == 'a' <==> c in {'a', 'A'}
      ensures Lower(c) == 'g' <==> c in {'g', 'G'}
      ensures Lower(c) == 'e' <==> c in {'e', 'E'}
      ensures Lower(c) == 'h' <==> c in {'h', 'H'}
      ensures Lower(c) == 'i' <==> c in {'i', 'I'}
      ensures Lower(c) == 't' <==> c in {'t', 'T'}
    {
      LowerTells(c);
    }
    hide Lower;
    if |text| >= 4 {
      assert text[..4][0] == text[0] && text[..4][1] == text[1] && text[..4][2] == text[2] && text[..4][3] == text[3];
    }
    if |text| >= 3 {
      assert text[..3][0] == text[0] && text[..3][1] == text[1] && text[..3][2] == text[2];
    }
  }

  lemma {:induction false} CloserTells(text: string, at: nat)
    ensures IsCloser(text, at) <==> ClosesAt(text, at)
  {
    hide StartsWithTag;
    if at + 1 < |text| {
      TagsTell(text[at + 2..]);
    }
  }

  /** No escaped text holds a closer anywhere, and a text without one is left as it is. */
  lemma {:induction false} EscapedHoldsNoCloser(text: string, at: nat)
    ensures !ClosesAt(Escaped(text), at)
    ensures (forall i: nat :: !ClosesAt(text, i)) ==> Escaped(text) == text
  {
    hide Escaped, IsCloser, ClosesAt;
    NoCloserLeft(text, at);
    CloserTells(Escaped(text), at);
    if forall i: nat :: !ClosesAt(text, i) {
      forall i: nat
        ensures !IsCloser(text, i)
      {
        CloserTells(text, i);
      }
      LeftAsItIs(text);
    }
  }

  lemma {:induction false} LeftAsItIs(text: string)
    requires forall i: nat :: !IsCloser(text, i)
    ensures Escaped(text) == text
  {
    if text != "" {
      forall i: nat
        ensures !IsCloser(text[1..], i)
      {
        assert !IsCloser(text, i + 1);
        if i + 2 <= |text[1..]| {
          assert text[1..][i + 2..] == text[i + 3..];
        }
      }
      LeftAsItIs(text[1..]);
      assert !IsCloser(text, 0);
      assert text == [text[0]] + text[1..];
    }
  }
}
