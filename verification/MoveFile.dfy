/** `Utils::MoveFile`: copy through a 1024-byte buffer with short reads and writes, then remove one of the two files. */
module MoveFile {
  type Contents = seq<bv8>

  type Files = map<string, Contents>

  const BUFFER_LENGTH: nat := 1024

  /** What the calls into the file library do: the k-th read is given `given(k)` bytes, of the j-th write `taken(j)`
      are taken. */
  datatype Env = Env(opens: bool, creates: bool, given: nat -> nat, taken: nat -> nat,
                     sourceGoes: bool, copyGoes: bool)

  function Min(a: nat, b: nat): nat { if a < b then a else b }

  /** The bytes one read call returns with `left` bytes before the end of the file; zero also stands for an error. */
  function ReadCount(offered: nat, left: nat): nat { Min(Min(offered, BUFFER_LENGTH), left) }

  /** How many of `len` bytes the inner loop writes, starting with the j-th write, and which write comes next. */
  function Pour(taken: nat -> nat, len: nat, j: nat): (r: (nat, nat))
    ensures r.0 <= len
  {
    if len == 0 then (0, j)
    else
      var count := Min(taken(j), len);
      if count == 0 then (0, j + 1)
      else var rest := Pour(taken, len - count, j + 1); (count + rest.0, rest.1)
  }

  /** How many bytes of a file of `size` bytes the whole copy writes after `at`, and whether it ends without a
      failed write. */
  function Copy(env: Env, size: nat, at: nat, k: nat, j: nat): (r: (nat, bool))
    requires at <= size
    ensures at <= r.0 <= size
    decreases size - at
  {
    var len := ReadCount(env.given(k), size - at);
    if len == 0 then (at, true)
    else
      var poured := Pour(env.taken, len, j);
      if poured.0 < len then (at + poured.0, false) else Copy(env, size, at + len, k + 1, poured.1)
  }

  predicate Begins(files: Files, from: string, to: string, env: Env) {
    from in files && to !in files && env.opens && env.creates
  }

  /** The result and the files that a call leaves. */
  function After(files: Files, from: string, to: string, env: Env): (bool, Files) {
    if !Begins(files, from, to, env) then (false, files)
    else
      var copied := Copy(env, |files[from]|, 0, 0, 0);
      var both := files[to := files[from][..copied.0]];
      (copied.1, both - if copied.1 then (if env.sourceGoes then {from} else {}) else if env.copyGoes then {to} else {})
  }

  lemma Overwrite(files: Files, to: string, c: Contents, d: Contents)
    ensures files[to := c][to := d] == files[to := d]
    ensures to in files ==> files[to := files[to]] == files
  {}

  lemma PourStep(taken: nat -> nat, len: nat, j: nat)
    ensures Pour(taken, 0, j) == (0, j)
    ensures var count := Min(taken(j), len);
      && (len > 0 && count == 0 ==> Pour(taken, len, j) == (0, j + 1))
      && (count > 0 ==> Pour(taken, len, j).0 == count + Pour(taken, len - count, j + 1).0)
      && (count > 0 ==> Pour(taken, len, j).1 == Pour(taken, len - count, j + 1).1)
  {}

  lemma CopyStep(env: Env, size: nat, at: nat, k: nat, j: nat)
    requires at <= size
    ensures var len := ReadCount(env.given(k), size - at);
      var poured := Pour(env.taken, len, j);
      && (0 < len && poured.0 < len ==> Copy(env, size, at, k, j) == (at + poured.0, false))
      && (0 < len == poured.0 ==> Copy(env, size, at, k, j) == Copy(env, size, at + len, k + 1, poured.1))
  {}

  lemma CopyEnds(env: Env, size: nat, at: nat, k: nat, j: nat)
    requires at <= size
    ensures var len := ReadCount(env.given(k), size - at);
      len <= size - at && len <= BUFFER_LENGTH && (len == 0 ==> Copy(env, size, at, k, j) == (at, true))
  {}

  lemma Joined(source: Contents, at: nat, len: nat, n: nat)
    requires at + len <= |source| && n <= len
    ensures source[..at] + source[at..at + len][..n] == source[..at + n]
  {}

  method Read(chunk: Contents, buffer: array<bv8>)
    requires |chunk| <= buffer.Length
    modifies buffer
    ensures buffer[..|chunk|] == chunk
  {
    forall i | 0 <= i < |chunk| {
      buffer[i] := chunk[i];
    }
  }

  class FileSystem {
    var files: Files

    constructor (files: Files)
      ensures this.files == files
    {
      this.files := files;
    }

    /** The inner loop: the first `length` bytes of the buffer go out in as many writes as it takes. */
    method WriteOut(to: string, buffer: array<bv8>, length: nat, env: Env, first: nat) returns (result: bool, j: nat)
      requires to in files && length <= buffer.Length
      modifies `files
      ensures var poured := Pour(env.taken, length, first);
        && result == (poured.0 == length) && j == poured.1
        && files == old(files)[to := old(files)[to] + buffer[..poured.0]]
    {
      hide Copy, After, Pour;
      var len, ptr: nat := length, 0;
      result, j := true, first;
      ghost var poured := Pour(env.taken, length, first);
      ghost var begun := files[to];
      Overwrite(files, to, begun, begun);
      assert begun + buffer[..0] == begun;
      while len > 0 && result
        invariant ptr + len == length
        invariant files == old(files)[to := begun + buffer[..ptr]]
        invariant result ==> poured.0 == ptr + Pour(env.taken, len, j).0 && poured.1 == Pour(env.taken, len, j).1
        invariant !result ==> ptr == poured.0 < length && j == poured.1
        decreases result, len
      {
        var count := Min(env.taken(j), len);
        PourStep(env.taken, len, j);
        j := j + 1;
        if count == 0 {
          result := false;
        } else {
          assert (begun + buffer[..ptr]) + buffer[ptr..ptr + count] == begun + buffer[..ptr + count];
          Overwrite(old(files), to, files[to], begun + buffer[..ptr + count]);
          files := files[to := files[to] + buffer[ptr..ptr + count]];
          len := len - count;
          ptr := ptr + count;
        }
      }
      PourStep(env.taken, len, j);
    }

    method MoveFile(from: string, to: string, env: Env) returns (result: bool)
      modifies this
      ensures (result, files) == After(old(files), from, to, env)
    {
      result := from in files && to !in files && env.opens && env.creates;
      if result {
        result := CopyAll(from, to, env);
        if result {
          if env.sourceGoes {
            files := files - {from};
          }
        } else if env.copyGoes {
          files := files - {to};
        }
      }
      assert forall f: Files :: f - {} == f;
    }

    /** The outer loop, into the file that has just been created. */
    method CopyAll(from: string, to: string, env: Env) returns (result: bool)
      requires from in files && to !in files
      modifies `files
      ensures var copied := Copy(env, |old(files)[from]|, 0, 0, 0);
        result == copied.1 && files == old(files)[to := old(files)[from][..copied.0]]
    {
      hide Copy;
      hide Pour;
      hide ReadCount;
      var source := files[from];
      var at: nat, k: nat, j: nat := 0, 0, 0;
      files := files[to := []];
      assert source[..0] == [];
      result := true;
      var buffer := new bv8[BUFFER_LENGTH];
      ghost var goal := Copy(env, |source|, 0, 0, 0);
      var ended := false;
      while result && !ended
        invariant at <= |source|
        invariant result ==> files == old(files)[to := source[..at]]
        invariant result && !ended ==> Copy(env, |source|, at, k, j) == goal
        invariant result && ended ==> goal == (at, true)
        invariant !result ==> !goal.1 && files == old(files)[to := source[..goal.0]]
        decreases result && !ended, |source| - at
      {
        var len := ReadCount(env.given(k), |source| - at);
        CopyEnds(env, |source|, at, k, j);
        if len == 0 {
          ended := true;
        } else {
          Read(source[at..at + len], buffer);
          ghost var n := Pour(env.taken, len, j).0;
          CopyStep(env, |source|, at, k, j);
          Joined(source, at, len, n);
          assert buffer[..n] == buffer[..len][..n];
          Overwrite(old(files), to, source[..at], source[..at + n]);
          result, j := WriteOut(to, buffer, len, env, j);
          if result {
            at := at + len;
          }
          k := k + 1;
        }
      }
    }
  }

  // ---- When true means moved ----

  /** Where the k-th read of a file of `size` bytes starts, if every read before it is carried on from. */
  function Offset(given: nat -> nat, size: nat, k: nat): (o: nat)
    ensures o <= size
  {
    if k == 0 then 0
    else var o := Offset(given, size, k - 1); o + ReadCount(given(k - 1), size - o)
  }

  /** No read returns nothing before the end of the file is reached. */
  ghost predicate ZeroMeansEnd(given: nat -> nat, size: nat) {
    forall k: nat :: given(k) == 0 ==> Offset(given, size, k) == size
  }

  lemma {:induction false} OffsetIsMonotone(given: nat -> nat, size: nat, k: nat, m: nat)
    requires k <= m
    ensures Offset(given, size, k) <= Offset(given, size, m)
    decreases m
  {
    if k < m {
      OffsetIsMonotone(given, size, k, m - 1);
    }
  }

  /** A copy without a failed write stops at the end of the file or at the first read that returned nothing. */
  lemma NextOffset(given: nat -> nat, size: nat, k: nat)
    ensures Offset(given, size, k + 1) == Offset(given, size, k) + ReadCount(given(k), size - Offset(given, size, k))
  {}

  /** A read moves on by a whole buffer of 1024 bytes if that much is given and left, and never by more. */
  lemma ReadsAreBuffered(given: nat -> nat, size: nat, k: nat)
    ensures var o, next := Offset(given, size, k), Offset(given, size, k + 1);
      && next <= o + 1024 && next <= o + given(k)
      && (given(k) >= 1024 && size - o >= 1024 ==> next == o + 1024)
      && (given(k) >= size - o && size - o <= 1024 ==> next == size)
  {
    NextOffset(given, size, k);
  }

  lemma {:induction false} CopyStops(env: Env, size: nat, k: nat, j: nat) returns (last: nat)
    requires Copy(env, size, Offset(env.given, size, k), k, j).1
    ensures last >= k && Copy(env, size, Offset(env.given, size, k), k, j).0 == Offset(env.given, size, last)
    ensures env.given(last) == 0 || Offset(env.given, size, last) == size
    ensures forall m: nat :: k <= m < last ==> env.given(m) != 0
    decreases size - Offset(env.given, size, k)
  {
    hide Offset;
    hide Pour;
    var at := Offset(env.given, size, k);
    var len := ReadCount(env.given(k), size - at);
    if len == 0 {
      last := k;
    } else {
      NextOffset(env.given, size, k);
      last := CopyStops(env, size, k + 1, Pour(env.taken, len, j).1);
    }
  }

  lemma CopiedAllIff(env: Env, size: nat)
    requires Copy(env, size, 0, 0, 0).1
    ensures Copy(env, size, 0, 0, 0).0 == size <==> ZeroMeansEnd(env.given, size)
  {
    var last := CopyStops(env, size, 0, 0);
    if Offset(env.given, size, last) == size {
      forall k: nat | env.given(k) == 0
        ensures Offset(env.given, size, k) == size
      {
        if k >= last {
          OffsetIsMonotone(env.given, size, last, k);
        }
      }
    }
  }

  /** A call that returned true has moved the file exactly if the old one could be removed, which the code does not look
      at, and no read returned nothing early. */
  lemma TrueMeansMovedIff(files: Files, from: string, to: string, env: Env)
    requires After(files, from, to, env).0
    ensures from in files && to !in files
    ensures After(files, from, to, env).1 == files[to := files[from]] - {from} <==>
            env.sourceGoes && ZeroMeansEnd(env.given, |files[from]|)
  {
    var size := |files[from]|;
    var copied := Copy(env, size, 0, 0, 0).0;
    CopiedAllIff(env, size);
    var after := After(files, from, to, env).1;
    assert after[to] == files[from][..copied];
    if env.sourceGoes {
      assert (files[to := files[from]] - {from})[to] == files[from];
      if copied == size {
        assert files[from][..copied] == files[from];
      }
    } else {
      assert from in after;
    }
  }

  /** A source that cannot be removed stays, beside a complete copy, and the call returns true all the same. */
  lemma UnremovableSourceStays(files: Files, from: string, to: string, env: Env)
    requires Begins(files, from, to, env) && !env.sourceGoes
    requires (forall m: nat :: env.taken(m) > 0) && ZeroMeansEnd(env.given, |files[from]|)
    ensures After(files, from, to, env) == (true, files[to := files[from]])
  {
    ShortWritesAreEnough(files, from, to, env);
    CopiedAllIff(env, |files[from]|);
    assert files[from][..|files[from]|] == files[from];
    assert forall f: Files :: f - {} == f;
  }

  /** False means that the old file is as it was, and no new one remains unless a failed copy could not be removed. */
  lemma FalseMeansUntouched(files: Files, from: string, to: string, env: Env)
    requires !After(files, from, to, env).0
    ensures var after := After(files, from, to, env).1;
      forall f :: f in files ==> f in after && after[f] == files[f]
    ensures After(files, from, to, env).1 == files <==> !Begins(files, from, to, env) || env.copyGoes
  {
    if Begins(files, from, to, env) {
      var after := After(files, from, to, env).1;
      if env.copyGoes {
        assert after == files;
      } else {
        assert to in after;
      }
    }
  }

  // ---- When the call succeeds ----

  lemma {:induction false} PourIsWholeUnlessAWriteFails(taken: nat -> nat, len: nat, j: nat)
    ensures Pour(taken, len, j).0 < len ==> exists m: nat :: taken(m) == 0
  {
    if len > 0 && taken(j) > 0 {
      PourIsWholeUnlessAWriteFails(taken, len - Min(taken(j), len), j + 1);
    }
  }

  lemma {:induction false} CopySucceeds(env: Env, size: nat, at: nat, k: nat, j: nat)
    requires at <= size && forall m: nat :: env.taken(m) > 0
    ensures Copy(env, size, at, k, j).1
    decreases size - at
  {
    var len := ReadCount(env.given(k), size - at);
    if len > 0 {
      PourIsWholeUnlessAWriteFails(env.taken, len, j);
      CopySucceeds(env, size, at + len, k + 1, Pour(env.taken, len, j).1);
    }
  }

  /** However short the writes are, and whatever the reads do, writes that progress make the call return true. */
  lemma ShortWritesAreEnough(files: Files, from: string, to: string, env: Env)
    requires Begins(files, from, to, env) && forall m: nat :: env.taken(m) > 0
    ensures After(files, from, to, env).0
  {
    CopySucceeds(env, |files[from]|, 0, 0, 0);
  }

  /** With writes that progress, a call returns true exactly if the source is there, the destination is not, and the one
      can be opened and the other created. Otherwise it returns false and touches nothing, whatever the writes do. */
  lemma TrueIff(files: Files, from: string, to: string, env: Env)
    ensures (forall m: nat :: env.taken(m) > 0) ==>
      (After(files, from, to, env).0 <==> from in files && to !in files && env.opens && env.creates)
    ensures from !in files || to in files || !env.opens || !env.creates ==>
      After(files, from, to, env) == (false, files)
  {
    if Begins(files, from, to, env) && forall m: nat :: env.taken(m) > 0 {
      ShortWritesAreEnough(files, from, to, env);
    }
  }

  /** A first read that fails loses the file: the call returns true with an empty copy. */
  lemma FailedReadLosesTheFile(files: Files, from: string, to: string, env: Env)
    requires Begins(files, from, to, env) && env.sourceGoes && env.given(0) == 0
    ensures After(files, from, to, env) == (true, files[to := []] - {from})
    ensures files[from] != [] ==> !ZeroMeansEnd(env.given, |files[from]|)
  {
    assert files[from][..0] == [];
    if files[from] != [] {
      assert Offset(env.given, |files[from]|, 0) == 0;
    }
  }
}
