/** Findings, and the acceptance of a post-repair review. */
module Review {
  import opened Common

  datatype Severity = Critical | High | Medium | Low | Minor

  datatype Finding = Finding(id: Id, severity: Severity, detail: Id)

  /** `id` is absent when the reply's item has no finding_id. */
  datatype Disposition = Disposition(id: Option<Id>, resolved: bool)

  predicate IsBlocking(f: Finding) {
    f.severity == Critical || f.severity == High
  }

  /** `blocking_findings`: the Critical and High findings, in order. */
  function Blocking(findings: seq<Finding>): (r: seq<Finding>)
    ensures forall f :: f in r <==> f in findings && f.severity in {Critical, High}
    ensures forall f :: f in r ==> multiset(r)[f] == multiset(findings)[f]
  {
    assert findings != [] ==> findings == [findings[0]] + findings[1..];
    if findings == [] then []
    else (if IsBlocking(findings[0]) then [findings[0]] else []) + Blocking(findings[1..])
  }

  function IdsOf(findings: seq<Finding>): set<Option<Id>> {
    set f | f in findings :: Some(f.id)
  }

  function AddressedIds(dispositions: seq<Disposition>): set<Option<Id>> {
    set d | d in dispositions :: d.id
  }

  predicate DistinctIds(dispositions: seq<Disposition>) {
    forall j, k :: 0 <= j < k < |dispositions| ==> dispositions[j].id != dispositions[k].id
  }

  /** The checks of `validate_post_repair_review`, as the code makes them. */
  predicate Accepts(findings: seq<Finding>, dispositions: seq<Disposition>, blockers: seq<Finding>) {
    && |dispositions| == |IdsOf(blockers)|
    && |AddressedIds(dispositions)| == |dispositions|
    && AddressedIds(dispositions) == IdsOf(blockers)
    && (forall d :: d in dispositions ==> d.resolved)
    && Blocking(findings) == []
  }

  function Occurrences(dispositions: seq<Disposition>, id: Option<Id>): nat {
    if dispositions == [] then 0
    else (if dispositions[0].id == id then 1 else 0) + Occurrences(dispositions[1..], id)
  }

  /** Every original blocker is resolved exactly once, nothing else is disposed of, and no new
      Critical or High finding is reported. */
  ghost predicate ResolvesEachOnce(findings: seq<Finding>, dispositions: seq<Disposition>, blockers: seq<Finding>) {
    && (forall b :: b in blockers ==> Occurrences(dispositions, Some(b.id)) == 1)
    && (forall d :: d in dispositions ==> d.resolved && d.id in IdsOf(blockers))
    && (forall f :: f in findings ==> !IsBlocking(f))
  }

  lemma {:induction false} OccursIffAddressed(dispositions: seq<Disposition>, id: Option<Id>)
    ensures Occurrences(dispositions, id) > 0 <==> id in AddressedIds(dispositions)
  {
    if dispositions != [] {
      OccursIffAddressed(dispositions[1..], id);
    }
  }

  /** No identifier is disposed of twice. */
  ghost predicate NoneTwice(dispositions: seq<Disposition>) {
    forall id :: Occurrences(dispositions, id) <= 1
  }

  lemma FirstOccurs(dispositions: seq<Disposition>, id: Option<Id>)
    requires dispositions != []
    ensures Occurrences(dispositions, id) ==
      Occurrences(dispositions[1..], id) + (if id == dispositions[0].id then 1 else 0)
  {
  }

  lemma NoneTwiceStep(dispositions: seq<Disposition>)
    requires dispositions != []
    ensures NoneTwice(dispositions) <==>
      NoneTwice(dispositions[1..]) && Occurrences(dispositions[1..], dispositions[0].id) == 0
  {
    var first, rest := dispositions[0].id, dispositions[1..];
    if NoneTwice(dispositions) {
      forall id ensures Occurrences(rest, id) <= 1 { FirstOccurs(dispositions, id); }
      FirstOccurs(dispositions, first);
    } else if NoneTwice(rest) && Occurrences(rest, first) == 0 {
      forall id ensures Occurrences(dispositions, id) <= 1 { FirstOccurs(dispositions, id); }
    }
  }

  lemma {:induction false} AddressedCount(dispositions: seq<Disposition>)
    ensures |AddressedIds(dispositions)| <= |dispositions|
    ensures |AddressedIds(dispositions)| == |dispositions| <==> NoneTwice(dispositions)
  {
    if dispositions == [] {
      assert AddressedIds(dispositions) == {};
    } else {
      var first, rest := dispositions[0].id, dispositions[1..];
      AddressedCount(rest);
      OccursIffAddressed(rest, first);
      NoneTwiceStep(dispositions);
      assert AddressedIds(dispositions) == AddressedIds(rest) + {first};
      if first in AddressedIds(rest) {
        assert AddressedIds(dispositions) == AddressedIds(rest);
      } else {
        assert |AddressedIds(dispositions)| == |AddressedIds(rest)| + 1;
      }
    }
  }

  /** The set and length comparisons in the code decide exactly "each blocker resolved once". */
  lemma AcceptsIffEachResolvedOnce(findings: seq<Finding>, dispositions: seq<Disposition>, blockers: seq<Finding>)
    ensures Accepts(findings, dispositions, blockers) <==> ResolvesEachOnce(findings, dispositions, blockers)
  {
    AddressedCount(dispositions);
    forall id ensures Occurrences(dispositions, id) > 0 <==> id in AddressedIds(dispositions) {
      OccursIffAddressed(dispositions, id);
    }
    assert Blocking(findings) == [] <==> forall f :: f in findings ==> !IsBlocking(f) by {
      if Blocking(findings) != [] {
        assert Blocking(findings)[0] in Blocking(findings);
      }
    }
    if Accepts(findings, dispositions, blockers) {
      forall b | b in blockers
        ensures Occurrences(dispositions, Some(b.id)) == 1
      {
        assert Some(b.id) in IdsOf(blockers);
      }
      forall d | d in dispositions
        ensures d.id in IdsOf(blockers)
      {
        assert d.id in AddressedIds(dispositions);
      }
    }
    if ResolvesEachOnce(findings, dispositions, blockers) {
      assert AddressedIds(dispositions) == IdsOf(blockers);
      forall id
        ensures Occurrences(dispositions, id) <= 1
      {
        if id in IdsOf(blockers) {
          var b :| b in blockers && Some(b.id) == id;
        }
      }
    }
  }

  /** One disposition has the finding's id, one only, and it is resolved. */
  ghost predicate ResolvedOnce(f: Finding, dispositions: seq<Disposition>) {
    exists j :: 0 <= j < |dispositions|
      && dispositions[j] == Disposition(Some(f.id), true)
      && forall k :: 0 <= k < |dispositions| && dispositions[k].id == Some(f.id) ==> k == j
  }

  lemma {:induction false} NoOccurrence(dispositions: seq<Disposition>, id: Option<Id>)
    ensures Occurrences(dispositions, id) == 0 <==> forall k :: 0 <= k < |dispositions| ==> dispositions[k].id != id
  {
    if dispositions != [] {
      NoOccurrence(dispositions[1..], id);
      assert forall k :: 0 < k < |dispositions| ==> dispositions[k] == dispositions[1..][k - 1];
    }
  }

  /** Counting to one is finding the only place. */
  lemma {:induction false} OccursOnceIff(dispositions: seq<Disposition>, f: Finding)
    requires forall d :: d in dispositions ==> d.resolved
    ensures Occurrences(dispositions, Some(f.id)) == 1 <==> ResolvedOnce(f, dispositions)
  {
    if dispositions != [] {
      var rest := dispositions[1..];
      OccursOnceIff(rest, f);
      NoOccurrence(rest, Some(f.id));
      assert forall k :: 0 < k < |dispositions| ==> dispositions[k] == rest[k - 1];
      if Occurrences(dispositions, Some(f.id)) == 1 {
        if dispositions[0].id == Some(f.id) {
          assert dispositions[0] in dispositions && dispositions[0] == Disposition(Some(f.id), true);
        } else {
          var j :| 0 <= j < |rest| && rest[j] == Disposition(Some(f.id), true)
            && forall k :: 0 <= k < |rest| && rest[k].id == Some(f.id) ==> k == j;
          assert dispositions[j + 1] == rest[j];
        }
      }
      if ResolvedOnce(f, dispositions) {
        var j :| 0 <= j < |dispositions| && dispositions[j] == Disposition(Some(f.id), true)
          && forall k :: 0 <= k < |dispositions| && dispositions[k].id == Some(f.id) ==> k == j;
        if j != 0 {
          assert rest[j - 1] == dispositions[j];
          assert ResolvedOnce(f, rest);
        }
      }
    }
  }

  /** What a second review says of the first, in the reports' own words: every Critical or High
      finding has exactly one disposition, resolved; every disposition belongs to such a finding; and
      the second review reports none of the two severities. */
  ghost predicate Settles(first: seq<Finding>, second: seq<Finding>, dispositions: seq<Disposition>) {
    && (forall f :: f in first && f.severity in {Critical, High} ==> ResolvedOnce(f, dispositions))
    && (forall d :: d in dispositions ==>
          d.resolved && exists f :: f in first && f.severity in {Critical, High} && d.id == Some(f.id))
    && (forall f :: f in second ==> f.severity in {Medium, Low, Minor})
  }

  lemma IsBlockersId(findings: seq<Finding>, id: Option<Id>)
    ensures id in IdsOf(Blocking(findings)) <==>
      exists f :: f in findings && f.severity in {Critical, High} && id == Some(f.id)
  {
  }

  lemma AcceptsIffSettles(first: seq<Finding>, second: seq<Finding>, dispositions: seq<Disposition>)
    ensures Accepts(second, dispositions, Blocking(first)) <==> Settles(first, second, dispositions)
  {
    hide ResolvedOnce, Occurrences, Accepts, Blocking, IdsOf;
    AcceptsIffEachResolvedOnce(second, dispositions, Blocking(first));
    if forall d :: d in dispositions ==> d.resolved {
      forall b | b in first
        ensures Occurrences(dispositions, Some(b.id)) == 1 <==> ResolvedOnce(b, dispositions)
      {
        OccursOnceIff(dispositions, b);
      }
      forall d | d in dispositions
        ensures d.id in IdsOf(Blocking(first)) <==>
          exists f :: f in first && f.severity in {Critical, High} && d.id == Some(f.id)
      {
        IsBlockersId(first, d.id);
      }
    }
  }
}
