/** The one-edit match of the search box against Levenshtein distance. */
module EditDistance {
  import opened Prelude

  /** The least number of insertions, deletions and substitutions. */
  function Distance(a: string, b: string): nat
    decreases |a| + |b|
  {
    if a == "" then |b|
    else if b == "" then |a|
    else
      Min(Distance(a[1..], b[1..]) + (if a[0] == b[0] then 0 else 1),
          Min(Distance(a[1..], b), Distance(a, b[1..])) + 1)
  }

  lemma {:induction false} DistanceIsSymmetric(a: string, b: string)
    ensures Distance(a, b) == Distance(b, a)
    decreases |a| + |b|
  {
    if a != "" && b != "" {
      DistanceIsSymmetric(a[1..], b[1..]);
      DistanceIsSymmetric(a[1..], b);
      DistanceIsSymmetric(a, b[1..]);
    }
  }

  lemma {:induction false} DistanceZeroIff(a: string, b: string)
    ensures Distance(a, b) == 0 <==> a == b
    decreases |a| + |b|
  {
    if a != "" && b != "" {
      DistanceZeroIff(a[1..], b[1..]);
      assert a == b <==> a[0] == b[0] && a[1..] == b[1..] by {
        assert a == [a[0]] + a[1..] && b == [b[0]] + b[1..];
      }
    }
  }

  /** Dropping the first letter of one side changes the distance by at most 1. */
  lemma {:induction false} DropChangesByOne(a: string, b: string)
    requires b != ""
    ensures Distance(a, b[1..]) <= Distance(a, b) + 1
    ensures Distance(a, b) <= Distance(a, b[1..]) + 1
    decreases |a|
  {
    if a != "" {
      DropChangesByOne(a[1..], b);
    }
  }

  /** A common first letter costs nothing. */
  lemma CommonHeadIsFree(a: string, b: string)
    requires a != "" && b != "" && a[0] == b[0]
    ensures Distance(a, b) == Distance(a[1..], b[1..])
  {
    DropChangesByOne(a[1..], b);
    DropChangesByOne(b[1..], a);
    DistanceIsSymmetric(a, b[1..]);
    DistanceIsSymmetric(a[1..], b[1..]);
  }

  lemma {:induction false} LengthsBound(a: string, b: string)
    ensures |b| - |a| <= Distance(a, b) && |a| - |b| <= Distance(a, b)
    decreases |a| + |b|
  {
    if a != "" && b != "" {
      LengthsBound(a[1..], b[1..]);
      LengthsBound(a[1..], b);
      LengthsBound(a, b[1..]);
    }
  }

  /** At a first difference one edit is left exactly when what follows matches
   *  after a substitution, or after an insertion into the longer side. */
  lemma DifferenceTakesTheEdit(s: string, l: string)
    requires s != "" && l != "" && s[0] != l[0] && |s| <= |l| <= |s| + 1
    ensures |s| == |l| ==> (Distance(s, l) <= 1 <==> s[1..] == l[1..])
    ensures |s| < |l| ==> (Distance(s, l) <= 1 <==> s == l[1..])
  {
    DistanceZeroIff(s[1..], l[1..]);
    DistanceZeroIff(s[1..], l);
    DistanceZeroIff(s, l[1..]);
  }

  /** Where the scan has got to: `edits` spent, `s` and `l` still to compare. */
  ghost predicate Scanned(shorter: string, longer: string, s: string, l: string, edits: nat) {
    && edits <= 1
    && (edits == 0 ==> |longer| - |shorter| == |l| - |s| && Distance(shorter, longer) == Distance(s, l))
    && (edits == 1 ==> |s| == |l| && (Distance(shorter, longer) <= 1 <==> s == l))
  }

  lemma ScanStep(shorter: string, longer: string, s: string, l: string, edits: nat)
    requires |shorter| <= |longer| <= |shorter| + 1
    requires Scanned(shorter, longer, s, l, edits) && s != "" && l != ""
    ensures s[0] == l[0] ==> Scanned(shorter, longer, s[1..], l[1..], edits)
    ensures s[0] != l[0] && edits == 1 ==> Distance(shorter, longer) > 1
    ensures s[0] != l[0] && edits == 0 ==>
      Scanned(shorter, longer, if |shorter| == |longer| then s[1..] else s, l[1..], 1)
  {
    if s[0] == l[0] {
      CommonHeadIsFree(s, l);
      assert s == l <==> s[1..] == l[1..] by {
        assert s == [s[0]] + s[1..] && l == [l[0]] + l[1..];
      }
    } else if edits == 0 {
      DifferenceTakesTheEdit(s, l);
    }
  }

  /** The scan: true exactly when the Levenshtein distance is at most one. */
  method WithinOneEdit(a: string, b: string) returns (r: bool)
    ensures r <==> Distance(a, b) <= 1
  {
    DistanceZeroIff(a, b);
    if a == b {
      return true;
    }
    DistanceIsSymmetric(a, b);
    var shorter, longer := if |a| <= |b| then a else b, if |a| <= |b| then b else a;
    LengthsBound(shorter, longer);
    if |longer| - |shorter| > 1 {
      return false;
    }
    var i, j, edits := 0, 0, 0;
    while i < |shorter| && j < |longer|
      invariant i <= |shorter| && j <= |longer|
      invariant Scanned(shorter, longer, shorter[i..], longer[j..], edits)
      decreases |longer| - j
    {
      ScanStep(shorter, longer, shorter[i..], longer[j..], edits);
      if shorter[i] == longer[j] {
        i := i + 1;
        j := j + 1;
        continue;
      }
      edits := edits + 1;
      if edits > 1 {
        return false;
      }
      if |shorter| == |longer| {
        i := i + 1;
      }
      j := j + 1;
    }
    r := edits + (|longer| - j) + (|shorter| - i) <= 1;
  }
}
