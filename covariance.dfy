/** The 3x3 covariance matrices (9 entries, row-major) the plugin attaches to
    its records, built once from a standard deviation. */
module Covariance {

  /** The matrix `setup_covariance` leaves behind: the "unknown" sentinel
      (-1 in the first entry, 0 elsewhere) for a zero deviation, otherwise
      the variance on the three diagonal entries and 0 elsewhere. */
  function CovarianceFromStdev(stdev: real): (r: seq<real>)
    ensures |r| == 9
    ensures stdev == 0.0 ==> r[0] == -1.0 && forall i :: 1 <= i < 9 ==> r[i] == 0.0
    ensures stdev != 0.0 ==>
      forall i :: 0 <= i < 9 ==> r[i] == if i % 4 == 0 then stdev * stdev else 0.0
  {
    if stdev == 0.0 then
      [-1.0, 0.0, 0.0, 0.0, 0.0, 0.0, 0.0, 0.0, 0.0]
    else
      var v := stdev * stdev;
      [v, 0.0, 0.0, 0.0, v, 0.0, 0.0, 0.0, v]
  }

  /** The sentinel is produced exactly for a zero deviation: a configured
      deviation is never mistaken for "unknown". */
  lemma UnknownIffZeroStdev(stdev: real)
    ensures CovarianceFromStdev(stdev)[0] < 0.0 <==> stdev == 0.0
  {
    if stdev != 0.0 {
      assert stdev * stdev > 0.0 by {
        if stdev < 0.0 { assert (-stdev) * (-stdev) > 0.0; }
      }
    }
  }

  /** Every matrix built is diagonal: row i, column j is 0 whenever i != j. */
  lemma CovarianceIsDiagonal(stdev: real, i: nat, j: nat)
    requires i < 3 && j < 3 && i != j
    ensures CovarianceFromStdev(stdev)[3 * i + j] == 0.0
  {
  }

  /** Fills a covariance array in place: zero everywhere, then the sentinel or
      the variance on the diagonal. */
  method SetupCovariance(cov: array<real>, stdev: real)
    requires cov.Length == 9
    modifies cov
    ensures cov[..] == CovarianceFromStdev(stdev)
  {
    var i := 0;
    while i < cov.Length
      invariant 0 <= i <= cov.Length
      invariant forall k :: 0 <= k < i ==> cov[k] == 0.0
    {
      cov[i] := 0.0;
      i := i + 1;
    }
    if stdev == 0.0 {
      cov[0] := -1.0;
    } else {
      var variance := stdev * stdev;
      cov[0 + 0], cov[3 + 1], cov[6 + 2] := variance, variance, variance;
    }
    assert forall k :: 0 <= k < 9 ==> cov[..][k] == CovarianceFromStdev(stdev)[k];
  }
}
