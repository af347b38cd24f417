/** Serialising a list of paths into one command-line argument.

    The plugins join the filtered paths with a `,` separator (Swift's
    `joined(separator:)`).  `Split` and `DecodeFileList` are not part of the
    plugins: they are the inverse a reader of that argument would apply, and
    exist here to state what the joined string preserves. */
module Joining {

  /** The separator the plugins put between paths. */
  const Comma: char := ','

  /** The number of characters held by all parts together. */
  function TotalLength(parts: seq<string>): nat {
    if |parts| == 0 then 0 else |parts[0]| + TotalLength(parts[1..])
  }

  /** `parts` with `sep` between neighbours; no parts give the empty string. */
  function Join(parts: seq<string>, sep: char): (r: string)
    ensures |parts| > 0 ==> |r| == TotalLength(parts) + |parts| - 1
    ensures |parts| > 0 ==> r[..|parts[0]|] == parts[0]
  {
    if |parts| == 0 then []
    else if |parts| == 1 then parts[0]
    else parts[0] + [sep] + Join(parts[1..], sep)
  }

  /** The pieces of `s` between occurrences of `sep`, empty pieces included. */
  function Split(s: string, sep: char): (r: seq<string>)
    ensures |r| >= 1
    ensures forall i :: 0 <= i < |r| ==> sep !in r[i]
    decreases |s|
  {
    if |s| == 0 then [[]]
    else
      var rest := Split(s[1..], sep);
      if s[0] == sep then [[]] + rest
      else [[s[0]] + rest[0]] + rest[1..]
  }

  /** A prefix without a separator is glued onto the first piece of the rest. */
  lemma {:induction false} SplitPrefix(a: string, b: string, sep: char)
    requires sep !in a
    ensures Split(a + b, sep) == [a + Split(b, sep)[0]] + Split(b, sep)[1..]
    decreases |a|
  {
    if |a| > 0 {
      assert (a + b)[1..] == a[1..] + b;
      SplitPrefix(a[1..], b, sep);
      assert [a[0]] + (a[1..] + Split(b, sep)[0]) == a + Split(b, sep)[0];
    } else {
      var pieces := Split(b, sep);
      assert a + b == b;
      assert a + pieces[0] == pieces[0];
      assert pieces == [pieces[0]] + pieces[1..];
    }
  }

  /** Splitting a joined list recovers it when no part holds the separator. */
  lemma {:induction false} SplitJoin(parts: seq<string>, sep: char)
    requires |parts| > 0
    requires forall i :: 0 <= i < |parts| ==> sep !in parts[i]
    ensures Split(Join(parts, sep), sep) == parts
    decreases |parts|
  {
    if |parts| == 1 {
      SplitPrefix(parts[0], [], sep);
      assert parts[0] + [] == parts[0];
    } else {
      var tail := Join(parts[1..], sep);
      assert Join(parts, sep) == parts[0] + ([sep] + tail);
      SplitPrefix(parts[0], [sep] + tail, sep);
      assert ([sep] + tail)[1..] == tail;
      assert Split([sep] + tail, sep) == [[]] + Split(tail, sep);
      SplitJoin(parts[1..], sep);
      assert parts[0] + [] == parts[0];
      assert parts == [parts[0]] + parts[1..];
    }
  }

  /** Joining the pieces of a string gives the string back. */
  lemma {:induction false} JoinSplit(s: string, sep: char)
    ensures Join(Split(s, sep), sep) == s
    decreases |s|
  {
    if |s| > 0 {
      var rest := Split(s[1..], sep);
      JoinSplit(s[1..], sep);
      if s[0] == sep {
        assert ([[]] + rest)[1..] == rest;
        assert s == [s[0]] + s[1..];
      } else {
        var r := [[s[0]] + rest[0]] + rest[1..];
        if |rest| == 1 {
          assert s == [s[0]] + s[1..];
        } else {
          assert r[1..] == rest[1..];
          assert Join(rest, sep) == rest[0] + [sep] + Join(rest[1..], sep);
          assert s == [s[0]] + s[1..];
        }
      }
    }
  }

  /** Reads a joined file-list argument back into paths; the empty string
      stands for the empty list. */
  function DecodeFileList(s: string): seq<string> {
    if |s| == 0 then [] else Split(s, Comma)
  }

  /** The joined argument is unambiguous for non-empty paths without commas:
      it decodes to exactly the list that was joined, the empty list included. */
  lemma FileListRoundTrip(parts: seq<string>)
    requires forall i :: 0 <= i < |parts| ==> |parts[i]| > 0 && Comma !in parts[i]
    ensures DecodeFileList(Join(parts, Comma)) == parts
  {
    if |parts| > 0 {
      SplitJoin(parts, Comma);
    }
  }

  /** Without the non-empty condition the empty list and the list holding one
      empty path serialise to the same argument. */
  lemma EmptyListIsAmbiguous()
    ensures Join([], Comma) == Join([[]], Comma)
    ensures DecodeFileList(Join([[]], Comma)) != [[]]
  {
  }
}
