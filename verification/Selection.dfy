/** Choosing one probe request among a planner's proposals. Canonical bytes are represented by
    their rank in the byte order, names and versions by theirs, and a request's digest by an
    arbitrary function of its executable part. */
module Selection {
  import opened Wrappers

  datatype Capability = Capability(name: nat, version: nat)

  /** The rationale is part of the canonical bytes but not of the digest. */
  datatype Request = Request(capability: Capability, arguments: nat, effects: set<nat>, rationale: nat)

  datatype Disposition =
    | Duplicate
    | UnsupportedCapability
    | InvalidEffectReference
    | Unavailable
    | BudgetExceeded
    | InvalidArguments
    | Selected
    | Deferred

  datatype Entry = Entry(costUnits: nat, remainingInvocations: nat)

  /** Everything a selection depends on besides the proposals. */
  datatype Context = Context(
    catalog: map<Capability, Entry>, probes: nat, costUnits: nat, resultBytes: nat,
    selectedCounts: map<Capability, nat>, effects: set<nat>, prior: set<nat>,
    rank: Request -> nat, digest: (Capability, nat, set<nat>) -> nat, argumentsValid: Request -> bool)
  {
    function Hash(r: Request): nat { digest(r.capability, r.arguments, r.effects) }

    function CountOf(c: Capability): nat { if c in selectedCounts then selectedCounts[c] else 0 }

    function Cost(r: Request): nat { if r.capability in catalog then catalog[r.capability].costUnits else 0 }

    /** Why a request cannot be dispatched, if it cannot. */
    function Refusal(r: Request): Option<Disposition> {
      if r.capability !in catalog then Some(UnsupportedCapability)
      else if !(r.effects <= effects) then Some(InvalidEffectReference)
      else if CountOf(r.capability) >= catalog[r.capability].remainingInvocations || probes == 0 then Some(Unavailable)
      else if catalog[r.capability].costUnits > costUnits || resultBytes == 0 then Some(BudgetExceeded)
      else if !argumentsValid(r) then Some(InvalidArguments)
      else None
    }
  }

  /** The order on candidates: cost, name, version, digest, then position. */
  predicate Before(x: Context, r: Request, i: nat, q: Request, j: nat) {
    if x.Cost(r) != x.Cost(q) then x.Cost(r) < x.Cost(q)
    else if r.capability.name != q.capability.name then r.capability.name < q.capability.name
    else if r.capability.version != q.capability.version then r.capability.version < q.capability.version
    else if x.Hash(r) != x.Hash(q) then x.Hash(r) < x.Hash(q)
    else i < j
  }

  // ---------- What the loops compute ----------

  /** The representative of a digest among the first `n` proposals. */
  function Representative(x: Context, p: seq<Request>, n: nat, hash: nat): Option<nat>
    requires n <= |p|
  {
    if n == 0 then None
    else
      var current := Representative(x, p, n - 1, hash);
      if x.Hash(p[n - 1]) != hash || hash in x.prior then current
      else if current.Some? && current.value < n && !(x.rank(p[n - 1]) < x.rank(p[current.value])) then current
      else Some(n - 1)
  }

  predicate Represents(x: Context, p: seq<Request>, i: nat)
    requires i < |p|
  {
    x.Hash(p[i]) !in x.prior && Representative(x, p, |p|, x.Hash(p[i])) == Some(i)
  }

  predicate Candidate(x: Context, p: seq<Request>, i: nat)
    requires i < |p|
  {
    Represents(x, p, i) && x.Refusal(p[i]).None?
  }

  /** The first candidate in the order among the first `n` proposals. */
  function Best(x: Context, p: seq<Request>, n: nat): (k: Option<nat>)
    requires n <= |p|
    ensures k.Some? ==> k.value < n
  {
    if n == 0 then None
    else
      var best := Best(x, p, n - 1);
      if !Candidate(x, p, n - 1) then best
      else if best.None? || Before(x, p[n - 1], n - 1, p[best.value], best.value) then Some(n - 1)
      else best
  }

  function Verdict(x: Context, p: seq<Request>, i: nat): Disposition
    requires i < |p|
  {
    if !Represents(x, p, i) then Duplicate
    else match x.Refusal(p[i])
      case Some(d) => d
      case None => if Best(x, p, |p|) == Some(i) then Selected else Deferred
  }

  function Verdicts(x: Context, p: seq<Request>): (v: seq<(Request, Disposition)>)
    ensures |v| == |p|
  {
    seq(|p|, i requires 0 <= i < |p| => (p[i], Verdict(x, p, i)))
  }

  function SelectedRequest(x: Context, p: seq<Request>): Option<Request> {
    match Best(x, p, |p|)
    case Some(i) => Some(p[i])
    case None => None
  }

  /** First pass: the least-bytes proposal of each digest not executed before. */
  method FindRepresentatives(x: Context, p: seq<Request>) returns (representatives: map<nat, nat>)
    ensures forall h :: h in representatives <==> Representative(x, p, |p|, h).Some?
    ensures forall h <- representatives :: Representative(x, p, |p|, h) == Some(representatives[h])
  {
    representatives := map[];
    var i := 0;
    while i < |p|
      invariant 0 <= i <= |p|
      invariant forall h :: h in representatives <==> Representative(x, p, i, h).Some?
      invariant forall h <- representatives ::
                  Representative(x, p, i, h) == Some(representatives[h]) && representatives[h] < i
    {
      var hash := x.Hash(p[i]);
      if hash !in x.prior
         && (hash !in representatives || x.rank(p[i]) < x.rank(p[representatives[hash]]))
      {
        representatives := representatives[hash := i];
      }
      i := i + 1;
    }
  }

  /** Second pass: why each proposal is out, and the best of those that are not. */
  method Dispose(x: Context, p: seq<Request>, representatives: map<nat, nat>)
    returns (dispositions: seq<Option<Disposition>>, best: Option<nat>)
    requires forall h :: h in representatives <==> Representative(x, p, |p|, h).Some?
    requires forall h <- representatives :: Representative(x, p, |p|, h) == Some(representatives[h])
    ensures |dispositions| == |p| && best == Best(x, p, |p|)
    ensures forall j :: 0 <= j < |p| ==>
              dispositions[j] == if !Represents(x, p, j) then Some(Duplicate) else x.Refusal(p[j])
  {
    dispositions := [];
    best := None;
    var i := 0;
    while i < |p|
      invariant 0 <= i == |dispositions| <= |p|
      invariant best == Best(x, p, i)
      invariant forall j :: 0 <= j < i ==>
                  dispositions[j] == if !Represents(x, p, j) then Some(Duplicate) else x.Refusal(p[j])
    {
      var hash := x.Hash(p[i]);
      var duplicate := hash in x.prior || hash !in representatives || representatives[hash] != i;
      assert duplicate <==> !Represents(x, p, i);
      var disposition := if duplicate then Some(Duplicate) else x.Refusal(p[i]);
      if disposition.None? && (best.None? || Before(x, p[i], i, p[best.value], best.value)) {
        best := Some(i);
      }
      dispositions := dispositions + [disposition];
      i := i + 1;
    }
  }

  /** The selection: two passes, then one record per proposal. */
  method SelectProposal(x: Context, p: seq<Request>)
    returns (selected: Option<Request>, records: seq<(Request, Disposition)>)
    ensures selected == SelectedRequest(x, p) && records == Verdicts(x, p)
  {
    var representatives := FindRepresentatives(x, p);
    var dispositions, best := Dispose(x, p, representatives);
    records := [];
    var i := 0;
    while i < |p|
      invariant 0 <= i == |records| <= |p|
      invariant forall j :: 0 <= j < i ==> records[j] == (p[j], Verdict(x, p, j))
    {
      var verdict := match dispositions[i]
        case Some(d) => d
        case None => if best == Some(i) then Selected else Deferred;
      records := records + [(p[i], verdict)];
      i := i + 1;
    }
    selected := if best.Some? then Some(p[best.value]) else None;
  }

  // ---------- The selection by the bag of proposals alone ----------

  /** Distinct requests have distinct canonical bytes. */
  ghost predicate Injective(x: Context) {
    forall r, q :: x.rank(r) == x.rank(q) ==> r == q
  }

  /** `r` has the least canonical bytes of its digest in the bag. */
  ghost predicate Least(x: Context, bag: multiset<Request>, r: Request) {
    r in bag && x.Hash(r) !in x.prior && forall q <- bag :: x.Hash(q) == x.Hash(r) ==> x.rank(r) <= x.rank(q)
  }

  ghost predicate Eligible(x: Context, bag: multiset<Request>, r: Request) {
    Least(x, bag, r) && x.Refusal(r).None?
  }

  /** `r` comes first among the eligible requests of the bag. */
  ghost predicate First(x: Context, bag: multiset<Request>, r: Request) {
    Eligible(x, bag, r) && forall q <- bag :: Eligible(x, bag, q) && q != r ==> Before(x, r, 0, q, 0)
  }

  ghost function BagVerdict(x: Context, bag: multiset<Request>, r: Request): Disposition {
    match x.Refusal(r)
    case Some(d) => d
    case None => if First(x, bag, r) then Selected else Deferred
  }

  lemma {:induction false} RepresentativeIsLeast(x: Context, p: seq<Request>, n: nat, hash: nat)
    requires n <= |p| && hash !in x.prior
    ensures match Representative(x, p, n, hash)
            case None => forall j :: 0 <= j < n ==> x.Hash(p[j]) != hash
            case Some(i) =>
              i < n && x.Hash(p[i]) == hash
              && forall j :: 0 <= j < n && x.Hash(p[j]) == hash ==>
                   x.rank(p[i]) <= x.rank(p[j]) && (x.rank(p[i]) == x.rank(p[j]) ==> i <= j)
  {
    if n > 0 {
      RepresentativeIsLeast(x, p, n - 1, hash);
    }
  }

  /** A proposal is its digest's representative exactly when it is the first copy of the request
      with the least bytes. */
  lemma RepresentsIffLeast(x: Context, p: seq<Request>, i: nat)
    requires i < |p| && Injective(x)
    ensures Represents(x, p, i) <==> Least(x, multiset(p), p[i]) && forall j :: 0 <= j < i ==> p[j] != p[i]
  {
    var hash := x.Hash(p[i]);
    if hash !in x.prior {
      RepresentativeIsLeast(x, p, |p|, hash);
      var k := Representative(x, p, |p|, hash).value;
      assert p[i] in multiset(p) && p[k] in multiset(p);
      if Represents(x, p, i) {
        forall q <- multiset(p) | x.Hash(q) == hash
          ensures x.rank(p[i]) <= x.rank(q)
        {
          var j :| 0 <= j < |p| && p[j] == q;
        }
      }
    }
  }

  lemma {:induction false} BestIsFirst(x: Context, p: seq<Request>, n: nat)
    requires n <= |p|
    ensures match Best(x, p, n)
            case None => forall j :: 0 <= j < n ==> !Candidate(x, p, j)
            case Some(i) =>
              i < n && Candidate(x, p, i)
              && forall j :: 0 <= j < n && Candidate(x, p, j) && j != i ==> Before(x, p[i], i, p[j], j)
  {
    if n > 0 {
      BestIsFirst(x, p, n - 1);
    }
  }

  lemma FirstCopy(p: seq<Request>, r: Request) returns (i: nat)
    requires r in multiset(p)
    ensures i < |p| && p[i] == r && forall j :: 0 <= j < i ==> p[j] != r
  {
    i := 0;
    while p[i] != r
      invariant i < |p| && forall j :: 0 <= j < i ==> p[j] != r
      invariant r in p[i..]
      decreases |p| - i
    {
      assert p[i..] == [p[i]] + p[i + 1..];
      i := i + 1;
    }
  }

  /** The selected proposal holds the request that comes first in the bag. */
  lemma SelectedIffFirst(x: Context, p: seq<Request>, i: nat)
    requires i < |p| && Injective(x) && Represents(x, p, i)
    ensures Verdict(x, p, i) == BagVerdict(x, multiset(p), p[i])
  {
    var bag := multiset(p);
    RepresentsIffLeast(x, p, i);
    BestIsFirst(x, p, |p|);
    if x.Refusal(p[i]).None? {
      if Best(x, p, |p|) == Some(i) {
        forall q <- bag | Eligible(x, bag, q) && q != p[i]
          ensures Before(x, p[i], 0, q, 0)
        {
          var j := FirstCopy(p, q);
          RepresentsIffLeast(x, p, j);
        }
      } else {
        assert Candidate(x, p, i);
        var k := Best(x, p, |p|).value;
        RepresentsIffLeast(x, p, k);
        assert Before(x, p[k], k, p[i], i) && !Before(x, p[i], 0, p[k], 0);
        assert Eligible(x, bag, p[k]) && p[k] in bag;
      }
    }
  }

  // ---------- Independence of the order of arrival ----------

  /** How often a request gets a disposition, from the bag alone. */
  ghost function Share(x: Context, bag: multiset<Request>, r: Request, d: Disposition): nat {
    if !Least(x, bag, r) then (if d.Duplicate? then bag[r] else 0)
    else if d.Duplicate? then (if bag[r] > 0 then bag[r] - 1 else 0)
    else if d == BagVerdict(x, bag, r) then 1
    else 0
  }

  function Firsts<T, U>(pairs: seq<(T, U)>): seq<T> {
    seq(|pairs|, i requires 0 <= i < |pairs| => pairs[i].0)
  }

  /** Pairs that share a first component and only take two second components split its count. */
  lemma {:induction false} CountSplits<T, U>(pairs: seq<(T, U)>, r: T, d: U, e: U)
    requires d != e
    requires forall i :: 0 <= i < |pairs| && pairs[i].0 == r ==> pairs[i].1 == d || pairs[i].1 == e
    ensures multiset(Firsts(pairs))[r] == multiset(pairs)[(r, d)] + multiset(pairs)[(r, e)]
    decreases |pairs|
  {
    if pairs != [] {
      var before, last := pairs[..|pairs| - 1], pairs[|pairs| - 1];
      CountSplits(before, r, d, e);
      assert pairs == before + [last];
      assert Firsts(pairs) == Firsts(before) + [last.0];
    }
  }

  lemma CountOne<T>(s: seq<T>, i: nat)
    requires i < |s| && forall j :: 0 <= j < |s| && s[j] == s[i] ==> j == i
    ensures multiset(s)[s[i]] == 1
  {
    assert s == s[..i] + [s[i]] + s[i + 1..];
    assert s[i] !in s[..i] && s[i] !in s[i + 1..];
    assert multiset(s[..i])[s[i]] == 0 && multiset(s[i + 1..])[s[i]] == 0;
  }

  /** Every request gets each disposition exactly as often as its share of the bag says. */
  lemma VerdictsFollowShares(x: Context, p: seq<Request>, r: Request, d: Disposition)
    requires Injective(x)
    ensures multiset(Verdicts(x, p))[(r, d)] == Share(x, multiset(p), r, d)
  {
    var bag, v := multiset(p), Verdicts(x, p);
    assert Firsts(v) == p;
    if r !in bag {
      forall j | 0 <= j < |v|
        ensures v[j] != (r, d)
      {
        assert p[j] in bag;
      }
    } else if !Least(x, bag, r) {
      forall j | 0 <= j < |v| && p[j] == r
        ensures v[j].1 == Duplicate
      {
        RepresentsIffLeast(x, p, j);
      }
      CountSplits(v, r, Duplicate, Selected);
    } else {
      LeastShares(x, p, r, d);
    }
  }

  lemma LeastShares(x: Context, p: seq<Request>, r: Request, d: Disposition)
    requires Injective(x) && Least(x, multiset(p), r)
    ensures multiset(Verdicts(x, p))[(r, d)] == Share(x, multiset(p), r, d)
  {
    var v := Verdicts(x, p);
    var i := FirstCopy(p, r);
    RepresentsIffLeast(x, p, i);
    SelectedIffFirst(x, p, i);
    var own := BagVerdict(x, multiset(p), r);
    assert own == Verdict(x, p, i) && !own.Duplicate?;
    forall j | 0 <= j < |v| && p[j] == r
      ensures v[j].1 == if j == i then own else Duplicate
    {
      RepresentsIffLeast(x, p, j);
    }
    CountOne(v, i);
    CountSplits(v, r, Duplicate, own);
    assert Firsts(v) == p;
  }

  /** Any two orders of the same proposals yield the same bag of (request, disposition) pairs. */
  lemma VerdictsIgnoreOrder(x: Context, p: seq<Request>, q: seq<Request>)
    requires Injective(x) && multiset(p) == multiset(q)
    ensures multiset(Verdicts(x, p)) == multiset(Verdicts(x, q))
  {
    forall r, d
      ensures multiset(Verdicts(x, p))[(r, d)] == multiset(Verdicts(x, q))[(r, d)]
    {
      VerdictsFollowShares(x, p, r, d);
      VerdictsFollowShares(x, q, r, d);
    }
    assert forall pair: (Request, Disposition) ::
      multiset(Verdicts(x, p))[(pair.0, pair.1)] == multiset(Verdicts(x, q))[(pair.0, pair.1)];
  }

  /** The selected request is the same for any order of arrival. */
  lemma SelectionIgnoresOrder(x: Context, p: seq<Request>, q: seq<Request>)
    requires Injective(x) && multiset(p) == multiset(q)
    ensures SelectedRequest(x, p) == SelectedRequest(x, q)
  {
    SelectedIsFirst(x, p);
    SelectedIsFirst(x, q);
  }

  lemma SelectedIsFirst(x: Context, p: seq<Request>)
    requires Injective(x)
    ensures match SelectedRequest(x, p)
            case Some(r) => First(x, multiset(p), r)
            case None => forall r :: !Eligible(x, multiset(p), r)
  {
    BestIsFirst(x, p, |p|);
    match Best(x, p, |p|)
    case Some(i) =>
      RepresentsIffLeast(x, p, i);
      SelectedIffFirst(x, p, i);
    case None =>
      forall r
        ensures !Eligible(x, multiset(p), r)
      {
        if Eligible(x, multiset(p), r) {
          var j := FirstCopy(p, r);
          RepresentsIffLeast(x, p, j);
          assert Candidate(x, p, j);
        }
      }
  }

  /** At most one proposal is selected; it is one the catalog, the budget and the correlation
      fields allow, and its digest was never executed before. */
  lemma AtMostOneSelected(x: Context, p: seq<Request>, i: nat, j: nat)
    requires i < |p| && j < |p| && Verdict(x, p, i).Selected?
    ensures Verdict(x, p, j).Selected? ==> i == j
    ensures x.Hash(p[i]) !in x.prior && SelectedRequest(x, p) == Some(p[i])
    ensures var r := p[i];
            && r.capability in x.catalog && r.effects <= x.effects && x.argumentsValid(r)
            && x.CountOf(r.capability) < x.catalog[r.capability].remainingInvocations
            && x.Cost(r) <= x.costUnits && x.probes > 0 && x.resultBytes > 0
  {
  }
}
