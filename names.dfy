/**
 * Name derivation for one requested image: the digest qualifier is folded
 * into a tag-like suffix, and the destination repository is the cleaned
 * reference flattened into a single path segment under the operator's
 * namespace (main.go, the body of the loop over the requested images).
 */
module Names {

  /** The digest qualifier that is cut out of a requested reference. */
  const DigestMarker: string := "@sha256"

  /** One line of the result ledger: the pulled reference and the pushed one. */
  datatype Record = Record(source: string, target: string)

  /** `pat` occurs in `s` starting at position `i`. */
  predicate OccursAt(s: string, pat: string, i: int)
  {
    0 <= i && i + |pat| <= |s| && s[i..i + |pat|] == pat
  }

  /** Moving past the first character shifts every occurrence one place to the left. */
  lemma OccursAtTail(s: string, pat: string, j: int)
    requires 1 <= j && |s| >= 1
    ensures OccursAt(s, pat, j) <==> OccursAt(s[1..], pat, j - 1)
  {
  }

  /** Go's strings.Index: the first position of `pat` in `s`, or -1 when there is none. */
  function IndexOf(s: string, pat: string): (r: int)
    ensures r == -1 ==> forall i :: !OccursAt(s, pat, i)
    ensures r != -1 ==> 0 <= r && OccursAt(s, pat, r)
    ensures forall i :: 0 <= i < r ==> !OccursAt(s, pat, i)
    decreases |s|
  {
    if |s| < |pat| then
      -1
    else if s[..|pat|] == pat then
      0
    else
      var k := IndexOf(s[1..], pat);
      assert forall j :: 1 <= j ==> (OccursAt(s, pat, j) <==> OccursAt(s[1..], pat, j - 1)) by {
        forall j | 1 <= j
          ensures OccursAt(s, pat, j) <==> OccursAt(s[1..], pat, j - 1)
        {
          OccursAtTail(s, pat, j);
        }
      }
      if k == -1 then -1 else k + 1
  }

  /** A digest qualifier starts with an '@'. */
  lemma DigestStartsWithAt(s: string)
    ensures var k := IndexOf(s, DigestMarker); k != -1 ==> 0 <= k < |s| && s[k] == '@'
  {
    var k := IndexOf(s, DigestMarker);
    if k != -1 {
      assert s[k..k + |DigestMarker|][0] == '@';
    }
  }

  /** Go's strings.Replace(s, pat, "", 1): the first occurrence of `pat` is cut out. */
  function RemoveFirst(s: string, pat: string): (r: string)
    // nothing to remove: the string is kept as it is; otherwise exactly `pat` is gone
    ensures IndexOf(s, pat) == -1 ==> r == s
    ensures IndexOf(s, pat) != -1 ==> |r| + |pat| == |s|
  {
    var k := IndexOf(s, pat);
    if k == -1 then s else s[..k] + s[k + |pat|..]
  }

  /** Go's strings.ReplaceAll(s, "/", "."): every path separator becomes a dot. */
  function Flatten(s: string): (r: string)
    ensures |r| == |s|
  {
    if s == [] then [] else [if s[0] == '/' then '.' else s[0]] + Flatten(s[1..])
  }

  /** Flattening keeps every character but '/', which it reads as '.', so no '/' is left. */
  lemma {:induction false} FlattenChars(s: string)
    ensures |Flatten(s)| == |s|
    ensures forall i :: 0 <= i < |s| ==> Flatten(s)[i] == (if s[i] == '/' then '.' else s[i])
    ensures '/' !in Flatten(s)
    decreases |s|
  {
    if s != [] {
      FlattenChars(s[1..]);
    }
  }

  /**
   * The record produced for a non-empty requested reference `entry` when the
   * operator's namespace is `username`.
   */
  function Derive(entry: string, username: string): (rec: Record)
    // the source is the entry, or the entry with one digest qualifier cut out
    ensures IndexOf(entry, DigestMarker) == -1 ==> rec.source == entry
    ensures IndexOf(entry, DigestMarker) != -1 ==> |rec.source| + |DigestMarker| == |entry|
    // the target is the namespace, a '/', and one character per source character
    ensures |rec.target| == |username| + 1 + |rec.source|
  {
    if IndexOf(entry, DigestMarker) != -1 then
      var source := RemoveFirst(entry, DigestMarker);
      Record(source, username + "/" + Flatten(source))
    else
      Record(entry, username + "/" + Flatten(entry))
  }

  /** Putting `pat` back at the position it was cut from restores the string. */
  lemma RemoveFirstRestores(s: string, pat: string)
    ensures var k, r := IndexOf(s, pat), RemoveFirst(s, pat);
      k != -1 ==> k <= |r| && s == r[..k] + pat + r[k..]
  {
    var k := IndexOf(s, pat);
    if k != -1 {
      assert s == s[..k] + pat + s[k + |pat|..];
    }
  }

  /**
   * The source is the entry without the first digest qualifier: kept as it
   * is when there is none, and with one, putting it back restores the entry.
   */
  lemma DeriveSource(entry: string, username: string)
    ensures var rec, k := Derive(entry, username), IndexOf(entry, DigestMarker);
      && (k == -1 ==> rec.source == entry)
      && (k != -1 ==>
            && |rec.source| + |DigestMarker| == |entry|
            && k <= |rec.source|
            && entry == rec.source[..k] + DigestMarker + rec.source[k..])
  {
    RemoveFirstRestores(entry, DigestMarker);
  }

  /** The target is "<username>/" followed by the source with every '/' read as '.'. */
  lemma DeriveTarget(entry: string, username: string)
    ensures var rec := Derive(entry, username);
      && |rec.target| == |username| + 1 + |rec.source|
      && rec.target[..|username| + 1] == username + "/"
      && (forall i :: 0 <= i < |rec.source| ==>
            rec.target[|username| + 1 + i] == (if rec.source[i] == '/' then '.' else rec.source[i]))
      && '/' !in rec.target[|username| + 1..]
  {
    var rec := Derive(entry, username);
    FlattenChars(rec.source);
    assert rec.target[|username| + 1..] == Flatten(rec.source);
  }

  /**
   * A non-empty entry can still yield an empty source: exactly when the entry
   * is the digest marker and nothing else.
   */
  lemma SourceEmptyIff(entry: string, username: string)
    ensures Derive(entry, username).source == "" <==> entry == "" || entry == DigestMarker
  {
  }

  /**
   * Flattening forgets the difference between '/' and '.', so two different
   * references can share one target.
   */
  lemma TargetsCanCollide(username: string)
    ensures exists a: string, b: string :: a != b && Derive(a, username).target == Derive(b, username).target
  {
    var a, b := "/", ".";
    DigestStartsWithAt(a);
    DigestStartsWithAt(b);
    assert Derive(a, username).target == Derive(b, username).target;
  }
}
