/**
 * `paths`: the content fingerprint of a pin's declared files. The files are
 * read in declared order and their bytes fed, back to back, to one
 * streaming SHA-256 whose digest is hex-encoded.
 *
 * SHA-256 followed by hex encoding is the `Digest` parameter; only the
 * bytes it is given are modelled.
 */
module Checksum {
  import opened Wrappers
  import opened Os
  import opened Errors
  import opened Tf

  type Digest = Bytes -> string

  /** The hash cannot confuse two different byte strings (the property SHA-256 is used for). */
  ghost predicate Injective(digest: Digest) {
    forall a: Bytes, b: Bytes :: digest(a) == digest(b) ==> a == b
  }

  /** The path strings of the declared list, `ValueString` of each element, in order. */
  function PathStrings(list: seq<TfString>): (ps: seq<string>)
    ensures |ps| == |list|
    ensures forall i :: 0 <= i < |list| ==> ps[i] == ValueString(list[i])
  {
    seq(|list|, i requires 0 <= i < |list| => ValueString(list[i]))
  }

  predicate AllReadable(ps: seq<string>, fs: FileSystem) {
    forall i :: 0 <= i < |ps| ==> ps[i] in fs
  }

  /** c1 ++ c2 ++ ... ++ cn: the files' contents in declared order, with nothing between them. */
  function Concat(ps: seq<string>, fs: FileSystem): Bytes
    requires AllReadable(ps, fs)
  {
    if ps == [] then [] else fs[ps[0]] + Concat(ps[1..], fs)
  }

  /** The index of the first path that cannot be read. */
  function FirstUnreadable(ps: seq<string>, fs: FileSystem): (k: nat)
    requires !AllReadable(ps, fs)
    ensures k < |ps| && ps[k] !in fs
    ensures forall j :: 0 <= j < k ==> ps[j] in fs
  {
    if ps[0] !in fs then 0 else 1 + FirstUnreadable(ps[1..], fs)
  }

  /**
   * The triple `paths` returns: the hex digest and the path list, or, at the
   * first unreadable path, an empty checksum, no list, and that path's error.
   */
  function PathsResult(list: seq<TfString>, fs: FileSystem, digest: Digest): (string, seq<string>, Option<Error>) {
    var ps := PathStrings(list);
    if AllReadable(ps, fs) then (digest(Concat(ps, fs)), ps, None)
    else ("", [], Some(FileError(ps[FirstUnreadable(ps, fs)])))
  }

  /** Feeding one more file to the stream extends the concatenation at its end. */
  lemma {:induction false} ConcatSnoc(ps: seq<string>, p: string, fs: FileSystem)
    requires AllReadable(ps, fs) && p in fs
    ensures AllReadable(ps + [p], fs)
    ensures Concat(ps + [p], fs) == Concat(ps, fs) + fs[p]
  {
    if ps != [] {
      assert (ps + [p])[1..] == ps[1..] + [p];
      ConcatSnoc(ps[1..], p, fs);
    }
  }

  /**
   * `paths`: reads each declared file in order, appending its path to the
   * list and its bytes to the hash; returns at the first unreadable path.
   */
  method Paths(list: seq<TfString>, fs: FileSystem, digest: Digest)
    returns (checksum: string, files: seq<string>, err: Option<Error>)
    ensures (checksum, files, err) == PathsResult(list, fs, digest)
    ensures err.None? <==> AllReadable(PathStrings(list), fs)
    ensures err.None? ==> files == PathStrings(list)
    ensures err.Some? ==> checksum == "" && files == []
  {
    ghost var ps := PathStrings(list);
    var hashed: Bytes := [];   // the bytes written into the streaming hash so far
    files := [];
    var i := 0;
    while i < |list|
      invariant 0 <= i <= |list|
      invariant files == ps[..i]
      invariant AllReadable(files, fs)
      invariant hashed == Concat(files, fs)
    {
      var value := ValueString(list[i]);
      if value !in fs {
        assert !AllReadable(ps, fs);
        assert FirstUnreadable(ps, fs) == i;
        return "", [], Some(FileError(value));
      }
      ConcatSnoc(files, value, fs);
      assert ps[..i + 1] == ps[..i] + [value];
      files := files + [value];
      hashed := hashed + fs[value];
      i := i + 1;
    }
    assert files == ps;
    checksum := digest(hashed);
    err := None;
  }

  // ---- what the fingerprint tells and does not tell apart ----

  function Fingerprint(ps: seq<string>, fs: FileSystem, digest: Digest): string
    requires AllReadable(ps, fs)
  {
    digest(Concat(ps, fs))
  }

  /** With an injective digest, two readable lists share a fingerprint exactly when their bytes concatenate alike. */
  lemma FingerprintsEqualIffConcatenationsEqual(ps: seq<string>, qs: seq<string>, fs: FileSystem, digest: Digest)
    requires Injective(digest)
    requires AllReadable(ps, fs) && AllReadable(qs, fs)
    ensures Fingerprint(ps, fs, digest) == Fingerprint(qs, fs, digest) <==> Concat(ps, fs) == Concat(qs, fs)
  {
  }

  lemma ConcatSingle(p: string, fs: FileSystem)
    requires p in fs
    ensures AllReadable([p], fs) && Concat([p], fs) == fs[p]
  {
    assert [p][1..] == [];
  }

  lemma ConcatPair(p: string, q: string, fs: FileSystem)
    requires p in fs && q in fs
    ensures AllReadable([p, q], fs) && Concat([p, q], fs) == fs[p] + fs[q]
  {
    assert [p, q][1..] == [q];
    ConcatSingle(q, fs);
  }

  /** With an injective hash, two files whose contents do not commute give different fingerprints in the two orders. */
  lemma FingerprintIsOrderSensitive(p: string, q: string, fs: FileSystem, digest: Digest)
    requires Injective(digest)
    requires p in fs && q in fs && fs[p] + fs[q] != fs[q] + fs[p]
    ensures AllReadable([p, q], fs) && AllReadable([q, p], fs)
    ensures Fingerprint([p, q], fs, digest) != Fingerprint([q, p], fs, digest)
  {
    ConcatPair(p, q, fs);
    ConcatPair(q, p, fs);
  }

  /**
   * Reordering files with different contents can leave the fingerprint as it
   * was: "a" then "aa" and "aa" then "a" are both "aaa".
   */
  lemma ReorderingDifferentFilesCanCollide(digest: Digest)
    ensures var fs := map["a.txt" := [97 as bv8], "b.txt" := [97 as bv8, 97 as bv8]];
      fs["a.txt"] != fs["b.txt"]
      && AllReadable(["a.txt", "b.txt"], fs) && AllReadable(["b.txt", "a.txt"], fs)
      && Fingerprint(["a.txt", "b.txt"], fs, digest) == Fingerprint(["b.txt", "a.txt"], fs, digest)
  {
    var fs := map["a.txt" := [97 as bv8], "b.txt" := [97 as bv8, 97 as bv8]];
    ConcatPair("a.txt", "b.txt", fs);
    ConcatPair("b.txt", "a.txt", fs);
    assert fs["a.txt"] + fs["b.txt"] == [97 as bv8, 97, 97] == fs["b.txt"] + fs["a.txt"];
  }

  /**
   * Path names and file boundaries are not hashed: one file "xy" and two
   * files "x", "y" have the same fingerprint.
   */
  lemma DifferentPathListsCanCollide(digest: Digest)
    ensures var fs := map["xy.txt" := [120 as bv8, 121 as bv8], "x.txt" := [120 as bv8], "y.txt" := [121 as bv8]];
      AllReadable(["xy.txt"], fs) && AllReadable(["x.txt", "y.txt"], fs)
      && Fingerprint(["xy.txt"], fs, digest) == Fingerprint(["x.txt", "y.txt"], fs, digest)
  {
    var fs := map["xy.txt" := [120 as bv8, 121 as bv8], "x.txt" := [120 as bv8], "y.txt" := [121 as bv8]];
    ConcatSingle("xy.txt", fs);
    ConcatPair("x.txt", "y.txt", fs);
    assert fs["x.txt"] + fs["y.txt"] == [120 as bv8, 121] == fs["xy.txt"];
  }

  /**
   * Changing the bytes of one declared file, keeping its length (a mutated
   * byte), changes the concatenation, wherever and however often the file
   * occurs in the list.
   */
  lemma {:induction false} ConcatSensitiveToContent(ps: seq<string>, fs: FileSystem, p: string, mutated: Bytes)
    requires AllReadable(ps, fs) && p in ps
    requires |mutated| == |fs[p]| && mutated != fs[p]
    ensures AllReadable(ps, fs[p := mutated])
    ensures Concat(ps, fs[p := mutated]) != Concat(ps, fs)
  {
    var fs' := fs[p := mutated];
    assert AllReadable(ps, fs') by {
      forall i | 0 <= i < |ps| ensures ps[i] in fs' { assert ps[i] in fs; }
    }
    if ps[0] == p {
      var n := |mutated|;
      assert Concat(ps, fs')[..n] == mutated;
      assert Concat(ps, fs)[..n] == fs[p];
    } else {
      assert p in ps[1..];
      ConcatSensitiveToContent(ps[1..], fs, p, mutated);
      var head := fs[ps[0]];
      assert fs'[ps[0]] == head;
      assert Concat(ps, fs')[|head|..] == Concat(ps[1..], fs');
      assert Concat(ps, fs)[|head|..] == Concat(ps[1..], fs);
    }
  }

  /** How many times `p` is declared in `ps`. */
  function Occurrences(ps: seq<string>, p: string): (n: nat)
    ensures n <= |ps|
    ensures p in ps ==> n >= 1
    ensures p !in ps ==> n == 0
  {
    if ps == [] then 0 else (if ps[0] == p then 1 else 0) + Occurrences(ps[1..], p)
  }

  /**
   * Rewriting one file changes the length of the concatenation by the change
   * of its length, once for every time the file is declared.
   */
  lemma {:induction false} ConcatLength(ps: seq<string>, fs: FileSystem, p: string, edited: Bytes)
    requires AllReadable(ps, fs) && p in fs
    ensures AllReadable(ps, fs[p := edited])
    ensures |Concat(ps, fs[p := edited])| == |Concat(ps, fs)| + Occurrences(ps, p) * (|edited| - |fs[p]|)
  {
    var fs' := fs[p := edited];
    assert AllReadable(ps, fs') by {
      forall i | 0 <= i < |ps| ensures ps[i] in fs' { assert ps[i] in fs; }
    }
    if ps != [] {
      assert AllReadable(ps[1..], fs) by {
        forall i | 0 <= i < |ps| - 1 ensures ps[1..][i] in fs { assert ps[i + 1] in fs; }
      }
      ConcatLength(ps[1..], fs, p, edited);
      var d := |edited| - |fs[p]|;
      var k := Occurrences(ps[1..], p);
      assert |fs'[ps[0]]| == |fs[ps[0]]| + (if ps[0] == p then d else 0);
      assert (k + 1) * d == k * d + d;
    }
  }

  /**
   * Any rewrite of a declared file, whether it keeps the length, grows or
   * shrinks the file, changes the concatenation.
   */
  lemma ConcatSensitiveToEdit(ps: seq<string>, fs: FileSystem, p: string, edited: Bytes)
    requires AllReadable(ps, fs) && p in ps && edited != fs[p]
    ensures AllReadable(ps, fs[p := edited])
    ensures Concat(ps, fs[p := edited]) != Concat(ps, fs)
  {
    if |edited| == |fs[p]| {
      ConcatSensitiveToContent(ps, fs, p, edited);
    } else {
      ConcatLength(ps, fs, p, edited);
      var k, d := Occurrences(ps, p), |edited| - |fs[p]|;
      assert k * d != 0 by {
        if d > 0 { assert k * d >= d; } else { assert k * d <= d; }
      }
    }
  }

  /** With an injective digest, any rewrite of any declared file changes the fingerprint. */
  lemma FingerprintSensitiveToContent(ps: seq<string>, fs: FileSystem, p: string, edited: Bytes, digest: Digest)
    requires Injective(digest)
    requires AllReadable(ps, fs) && p in ps && edited != fs[p]
    ensures AllReadable(ps, fs[p := edited])
    ensures Fingerprint(ps, fs[p := edited], digest) != Fingerprint(ps, fs, digest)
  {
    ConcatSensitiveToEdit(ps, fs, p, edited);
  }
}
