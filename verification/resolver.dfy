/**
 * The identifier resolver: turns a pastefy URL, with or without its scheme,
 * or a bare paste id into the id the upstream API is addressed with.
 */
module Resolver {

  /** The path separator that `split` cuts at. */
  const Sep: char := '/'

  /** The two host prefixes that mark an input as a pastefy URL. */
  const FullPrefix: string := "https://pastefy.app/"
  const BarePrefix: string := "pastefy.app/"

  /**
   * Python's `s.split('/')`: the pieces between separators, in order. An
   * explicit separator never drops empty pieces, so the list is never empty.
   */
  function Split(s: string): (parts: seq<string>)
    ensures |parts| >= 1
    ensures forall i :: 0 <= i < |parts| ==> Sep !in parts[i]
  {
    if |s| == 0 then [""]
    else if s[0] == Sep then [""] + Split(s[1..])
    else
      var rest := Split(s[1..]);
      [[s[0]] + rest[0]] + rest[1..]
  }

  /** Python's `'/'.join(parts)`, the inverse of Split. */
  function Join(parts: seq<string>): string
    requires |parts| >= 1
  {
    if |parts| == 1 then parts[0] else parts[0] + [Sep] + Join(parts[1..])
  }

  /** Splitting and joining again gives back the input. */
  lemma {:induction false} JoinSplit(s: string)
    ensures Join(Split(s)) == s
  {
    if |s| == 0 {
    } else if s[0] == Sep {
      var rest := Split(s[1..]);
      JoinSplit(s[1..]);
      assert ([""] + rest)[1..] == rest;
    } else {
      var rest := Split(s[1..]);
      JoinSplit(s[1..]);
      var parts := [[s[0]] + rest[0]] + rest[1..];
      assert s == [s[0]] + s[1..];
      if |rest| > 1 {
        assert parts[1..] == rest[1..];
      }
    }
  }

  /** Joining peels off the last piece together with the separator before it. */
  lemma {:induction false} JoinLast(parts: seq<string>)
    requires |parts| >= 2
    ensures Join(parts) == Join(parts[..|parts| - 1]) + [Sep] + parts[|parts| - 1]
  {
    var n := |parts|;
    if n > 2 {
      JoinLast(parts[1..]);
      assert parts[1..][..n - 2] == parts[..n - 1][1..];
    }
  }

  /** `s.split('/')[-1]`. */
  function LastSegment(s: string): string
  {
    var parts := Split(s);
    parts[|parts| - 1]
  }

  /**
   * `r` is the text after the last '/' of `s`, or all of `s` when it has no
   * '/': a suffix of `s` without '/' that is preceded by '/' whenever it is
   * shorter than `s`.
   */
  ghost predicate IsLastSegment(s: string, r: string)
  {
    && |r| <= |s|
    && s[|s| - |r|..] == r
    && Sep !in r
    && (|r| < |s| ==> s[|s| - |r| - 1] == Sep)
  }

  /** The last piece of Split is the text after the last separator. */
  lemma LastSegmentIsAfterLastSep(s: string)
    ensures IsLastSegment(s, LastSegment(s))
    ensures Sep in s <==> |LastSegment(s)| < |s|
  {
    var parts := Split(s);
    JoinSplit(s);
    if |parts| >= 2 {
      JoinLast(parts);
      var r := parts[|parts| - 1];
      assert s == Join(parts[..|parts| - 1]) + [Sep] + r;
      assert s[|s| - |r| - 1] == Sep;
    }
  }

  /** There is only one text after the last separator. */
  lemma LastSegmentUnique(s: string, r: string)
    ensures IsLastSegment(s, r) <==> r == LastSegment(s)
  {
    LastSegmentIsAfterLastSep(s);
  }

  /** The input names a paste by its pastefy URL, with or without scheme. */
  predicate HasHostPrefix(url: string)
  {
    FullPrefix <= url || BarePrefix <= url
  }

  /**
   * extract_paste_id: a pastefy URL resolves to its last path segment; any
   * other input is taken to be an id already and is returned unchanged.
   */
  function ExtractPasteId(url: string): (id: string)
    ensures HasHostPrefix(url) ==> IsLastSegment(url, id)
    ensures !HasHostPrefix(url) ==> id == url
    ensures HasHostPrefix(url) ==> Sep !in id && |id| < |url|
  {
    LastSegmentIsAfterLastSep(url);
    if FullPrefix <= url then
      assert url[|FullPrefix| - 1] == Sep;
      LastSegment(url)
    else if BarePrefix <= url then
      assert url[|BarePrefix| - 1] == Sep;
      LastSegment(url)
    else
      url
  }

  /**
   * For a pastefy URL, being its resolved id and being the text after its
   * last '/' are the same thing.
   */
  lemma ExtractPasteIdExactly(url: string, r: string)
    requires HasHostPrefix(url)
    ensures ExtractPasteId(url) == r <==> IsLastSegment(url, r)
  {
    LastSegmentUnique(url, r);
    LastSegmentUnique(url, ExtractPasteId(url));
  }

  /** A host prefix followed by an id without '/' resolves to that id. */
  lemma PrefixedIdResolves(id: string)
    requires Sep !in id
    ensures ExtractPasteId(FullPrefix + id) == id
    ensures ExtractPasteId(BarePrefix + id) == id
  {
    var full, bare := FullPrefix + id, BarePrefix + id;
    assert full[|full| - |id|..] == id && full[..|FullPrefix|] == FullPrefix;
    ExtractPasteIdExactly(full, id);
    assert bare[|bare| - |id|..] == id && bare[..|BarePrefix|] == BarePrefix;
    ExtractPasteIdExactly(bare, id);
  }

  /** The resolved id is always a suffix of the input. */
  lemma ExtractPasteIdIsSuffix(url: string)
    ensures |ExtractPasteId(url)| <= |url|
    ensures url[|url| - |ExtractPasteId(url)|..] == ExtractPasteId(url)
  {
  }

  /** Resolving an already resolved id changes nothing. */
  lemma ExtractPasteIdIdempotent(url: string)
    ensures ExtractPasteId(ExtractPasteId(url)) == ExtractPasteId(url)
  {
  }
}
