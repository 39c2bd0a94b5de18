/**
 * The collision-free destination name chosen when a picked file is copied
 * into the Songs or Video folder: the file's own name if it is free,
 * otherwise `base_1.ext`, `base_2.ext`, ... until one is free.
 */
module FileNaming {
  import opened Text
  import opened Paths

  /**
   * The k-th name tried for `name`: k = 0 is the name itself, k >= 1 is
   * `base_k.ext`. The '.' is always inserted, so a name without an
   * extension yields `base_k.`.
   */
  function Candidate(name: string, k: nat): string {
    if k == 0 then name
    else
      var parts := SplitExtension(name);
      parts.base + "_" + DecimalString(k) + "." + parts.ext
  }

  /** Different probes never produce the same name. */
  lemma {:induction false} CandidateInjective(name: string, j: nat, k: nat)
    requires Candidate(name, j) == Candidate(name, k)
    ensures j == k
  {
    var parts := SplitExtension(name);
    var prefix, suffix := parts.base + "_", "." + parts.ext;
    if j != 0 && k != 0 {
      var c := Candidate(name, j);
      var dj, dk := DecimalString(j), DecimalString(k);
      assert c == prefix + dj + suffix;
      assert c == prefix + dk + suffix;
      assert |dj| == |dk|;
      assert dj == c[|prefix|..|prefix| + |dj|];
      assert dk == c[|prefix|..|prefix| + |dk|];
      DecimalStringInjective(j, k);
    }
  }

  /** The probes 0 .. k-1 are k distinct names. */
  lemma {:induction false} CandidatesDistinct(name: string, k: nat)
    ensures |set j | 0 <= j < k :: Candidate(name, j)| == k
  {
    if k > 0 {
      CandidatesDistinct(name, k - 1);
      var before := set j | 0 <= j < k - 1 :: Candidate(name, j);
      var all := set j | 0 <= j < k :: Candidate(name, j);
      var last := Candidate(name, k - 1);
      forall j | 0 <= j < k - 1 ensures Candidate(name, j) != last {
        if Candidate(name, j) == last {
          CandidateInjective(name, j, k - 1);
        }
      }
      assert last !in before;
      assert all == before + {last};
    }
  }

  /** k probes that all hit an existing entry need at least k entries. */
  lemma CandidatesTaken(name: string, existing: set<string>, k: nat)
    requires forall j :: 0 <= j < k ==> Candidate(name, j) in existing
    ensures k <= |existing|
  {
    var tried := set j | 0 <= j < k :: Candidate(name, j);
    CandidatesDistinct(name, k);
    assert tried - existing == {};
    assert tried + existing == existing;
    assert tried * existing == tried;
    assert |existing - tried| + |tried| == |existing|;
  }

  /** The first free probe at or after k, given that the probes before k are taken. */
  function FirstFreeFrom(existing: set<string>, name: string, k: nat): (r: nat)
    requires forall j :: 0 <= j < k ==> Candidate(name, j) in existing
    ensures k <= r
    ensures Candidate(name, r) !in existing
    ensures forall j :: 0 <= j < r ==> Candidate(name, j) in existing
    decreases |existing| - k
  {
    if Candidate(name, k) !in existing then k
    else
      CandidatesTaken(name, existing, k + 1);
      FirstFreeFrom(existing, name, k + 1)
  }

  /** The index of the first free probe; the loop stops with `fileIndex` one above it. */
  function FirstFreeIndex(existing: set<string>, name: string): (k: nat)
    ensures Candidate(name, k) !in existing
    ensures forall j :: 0 <= j < k ==> Candidate(name, j) in existing
    ensures k <= |existing|
  {
    var k := FirstFreeFrom(existing, name, 0);
    CandidatesTaken(name, existing, k);
    k
  }

  /** dest is a probe for name, and every probe before it is taken. */
  ghost predicate IsFirstFreeProbe(existing: set<string>, name: string, dest: string) {
    exists k: nat :: dest == Candidate(name, k) && forall j :: 0 <= j < k ==> Candidate(name, j) in existing
  }

  /** The name the copy is written to. */
  function DestinationName(existing: set<string>, name: string): (dest: string)
    ensures dest !in existing
    ensures name !in existing ==> dest == name
    ensures name in existing ==> exists k :: 1 <= k <= |existing| && dest == Candidate(name, k)
    ensures IsFirstFreeProbe(existing, name, dest)
  {
    var k := FirstFreeIndex(existing, name);
    assert name in existing ==> k >= 1;
    Candidate(name, k)
  }

  /**
   * The while loop of `saveSongToDocumentsFolder` / `saveVideoToDocumentsFolder`:
   * probe until the destination does not exist in the folder.
   */
  method UniqueDestination(existing: set<string>, name: string) returns (destination: string, fileIndex: nat)
    ensures destination !in existing
    ensures 1 <= fileIndex <= |existing| + 1
    ensures destination == Candidate(name, fileIndex - 1)
    ensures forall j :: 0 <= j < fileIndex - 1 ==> Candidate(name, j) in existing
    ensures destination == DestinationName(existing, name)
  {
    destination := name;
    fileIndex := 1;
    while destination in existing
      invariant 1 <= fileIndex
      invariant destination == Candidate(name, fileIndex - 1)
      invariant forall j :: 0 <= j < fileIndex - 1 ==> Candidate(name, j) in existing
      invariant FirstFreeFrom(existing, name, fileIndex - 1) == FirstFreeIndex(existing, name)
      decreases |existing| - fileIndex
    {
      CandidatesTaken(name, existing, fileIndex);
      var parts := SplitExtension(name);
      destination := parts.base + "_" + DecimalString(fileIndex) + "." + parts.ext;
      fileIndex := fileIndex + 1;
    }
    CandidatesTaken(name, existing, fileIndex - 1);
  }

  /** A renamed copy keeps the original's extension, so it still passes the same extension filter. */
  lemma CandidateKeepsExtension(name: string, k: nat)
    ensures PathExtension(Candidate(name, k)) == PathExtension(name)
  {
    if k > 0 {
      var parts := SplitExtension(name);
      SplitJoinedName(parts.base + "_" + DecimalString(k), parts.ext);
    }
  }

  /**
   * With an empty extension the format still inserts the '.': every renamed
   * probe ends in '.', and a name without any '.' becomes `name_k.`.
   */
  lemma CandidateWithoutExtension(name: string, k: nat)
    requires PathExtension(name) == "" && k >= 1
    ensures |Candidate(name, k)| > 0 && Candidate(name, k)[|Candidate(name, k)| - 1] == '.'
    ensures '.' !in name ==> Candidate(name, k) == name + "_" + DecimalString(k) + "."
  {
  }
}
