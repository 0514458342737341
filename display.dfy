/** The selection logic of `display_report`: the referral and path sections list at
    most the first five entries, numbered from 1 as `enumerate(xs[:5], 1)` does. */
module Display {
  import opened Reports

  /** One numbered line of a list section. */
  datatype Ranked<T> = Ranked(rank: nat, item: T)

  const TopCount: nat := 5

  /** `enumerate(s, first)`: each element paired with its position counted from `first`. */
  function Enumerate<T>(s: seq<T>, first: nat): (r: seq<Ranked<T>>)
    ensures |r| == |s|
    ensures forall i :: 0 <= i < |s| ==> r[i] == Ranked(first + i, s[i])
  {
    if s == [] then [] else [Ranked(first, s[0])] + Enumerate(s[1..], first + 1)
  }

  /** `enumerate(s[:5], 1)`: the first `min(5, |s|)` entries of `s`, in order, numbered 1, 2, .... */
  function TopFive<T>(s: seq<T>): (r: seq<Ranked<T>>)
    ensures |r| <= TopCount
    ensures |r| == if |s| < TopCount then |s| else TopCount
    ensures forall i :: 0 <= i < |r| ==> r[i].rank == i + 1 && r[i].item == s[i]
  {
    Enumerate(if |s| <= TopCount then s else s[..TopCount], 1)
  }

  /** The lines of the "top referral sources" section; none when the list is empty. */
  function ReferralLines(report: Report): (r: seq<Ranked<Referrer>>)
    ensures r == [] <==> report.referralSources == []
    ensures |r| == if |report.referralSources| < TopCount then |report.referralSources| else TopCount
    ensures forall i :: 0 <= i < |r| ==> r[i] == Ranked(i + 1, report.referralSources[i])
  {
    TopFive(report.referralSources)
  }

  /** The lines of the "most popular paths" section; none when the list is empty. */
  function PathLines(report: Report): (r: seq<Ranked<PopularPath>>)
    ensures r == [] <==> report.popularPaths == []
    ensures |r| == if |report.popularPaths| < TopCount then |report.popularPaths| else TopCount
    ensures forall i :: 0 <= i < |r| ==> r[i] == Ranked(i + 1, report.popularPaths[i])
  {
    TopFive(report.popularPaths)
  }

  /** The numbers shown are exactly 1 .. n without gaps, and an entry is shown exactly
      when it is among the first five the API returned. */
  lemma {:induction false} TopFiveShowsPrefix<T>(s: seq<T>, k: nat)
    requires k < |s|
    ensures (exists i :: 0 <= i < |TopFive(s)| && TopFive(s)[i] == Ranked(k + 1, s[k])) <==> k < TopCount
  {
    var r := TopFive(s);
    if k < TopCount {
      assert r[k] == Ranked(k + 1, s[k]);
    } else {
      forall i | 0 <= i < |r| ensures r[i] != Ranked(k + 1, s[k]) {
        assert r[i].rank == i + 1;
      }
    }
  }
}
