/**
 The facts of the Teams message card, built in `post_teams` before the HTTP
 call: the billed services as `{"name": "<amount> USD", "value": <service>}`,
 sorted by amount from largest to smallest with `sorted(..., reverse=True)`,
 which is stable, and then stripped of the amount kept as sort key.
 */
module Facts {
  import opened Results
  import opened Money
  import opened Seqs
  import opened Message

  /** A fact as posted: the amount label and the service name. */
  datatype Fact = Fact(name: string, value: string)

  /** A fact while it still carries its sort key `billing`. */
  datatype KeyedFact = KeyedFact(name: string, value: string, billing: int)

  function ToKeyed(s: ServiceBilling): KeyedFact {
    KeyedFact(Label(s.cents), s.serviceName, s.cents)
  }

  /** The first loop of `post_teams`: a keyed fact per billed service, in input order. */
  function CollectFacts(services: seq<ServiceBilling>): seq<KeyedFact> {
    Map(ToKeyed, Billed(services))
  }

  /** Inserts `x` before the first element whose amount is not larger, so that it stays ahead of equal amounts. */
  function Insert(x: KeyedFact, sorted: seq<KeyedFact>): seq<KeyedFact>
    decreases |sorted|
  {
    if |sorted| == 0 || x.billing >= sorted[0].billing then [x] + sorted
    else [sorted[0]] + Insert(x, sorted[1..])
  }

  /** `sorted(facts, key=lambda x: x["billing"], reverse=True)`. */
  function SortByBilling(xs: seq<KeyedFact>): seq<KeyedFact>
    decreases |xs|
  {
    if |xs| == 0 then [] else Insert(xs[0], SortByBilling(xs[1..]))
  }

  /** `del item["billing"]`. */
  function StripKey(k: KeyedFact): Fact {
    Fact(k.name, k.value)
  }

  /** The `facts` list of the message card, from the raw service billings. */
  function TeamsFacts(services: seq<ServiceBilling>): seq<Fact> {
    Map(StripKey, SortByBilling(CollectFacts(services)))
  }

  /** The first loop of `post_teams`: skips services billed `0.0` and keeps a keyed fact for each other one. */
  method CollectKeyed(services: seq<ServiceBilling>) returns (keyed: seq<KeyedFact>)
    ensures keyed == Map(ToKeyed, Filter(IsBilled, services))
  {
    keyed := CollectWhere(ToKeyed, IsBilled, services);
  }

  /** The last loop of `post_teams`: deletes the sort key of every fact, keeping the order. */
  method StripKeys(sorted: seq<KeyedFact>) returns (facts: seq<Fact>)
    ensures |facts| == |sorted|
    ensures forall k :: 0 <= k < |sorted| ==> facts[k].name == sorted[k].name && facts[k].value == sorted[k].value
  {
    facts := [];
    var j := 0;
    while j < |sorted|
      invariant 0 <= j <= |sorted|
      invariant |facts| == j
      invariant forall k :: 0 <= k < j ==> facts[k] == StripKey(sorted[k])
    {
      facts := facts + [Fact(sorted[j].name, sorted[j].value)];
      j := j + 1;
    }
  }

  /** The facts part of `post_teams`: collect, sort, strip. */
  method BuildFacts(services: seq<ServiceBilling>) returns (facts: seq<Fact>)
    ensures facts == TeamsFacts(services)
  {
    var keyed := CollectKeyed(services);
    var sorted := SortByBilling(keyed);
    facts := StripKeys(sorted);
    assert keyed == CollectFacts(services);
    assert facts == Map(StripKey, sorted);
  }

  // ---- The specification of a stable sort by amount, largest first ----

  /** Amounts never increase along the list. */
  predicate NonIncreasing(xs: seq<KeyedFact>) {
    forall i, j :: 0 <= i < j < |xs| ==> xs[i].billing >= xs[j].billing
  }

  /**
   The elements with amount `a`, in list order. This and the two selections
   by label and by service amount below are filters written out by hand rather
   than `Seqs.Filter` with a closure over `a`: the induction proofs of the sort
   unfold them one element at a time, and a closure would add an apply step
   to every unfolding.
   */
  function WithBilling(xs: seq<KeyedFact>, a: int): seq<KeyedFact>
    decreases |xs|
  {
    if |xs| == 0 then [] else (if xs[0].billing == a then [xs[0]] else []) + WithBilling(xs[1..], a)
  }

  /**
   `output` is `input` stably sorted by amount, largest first: amounts never
   increase, and for every amount the elements carrying it appear in the same
   order as in the input.
   */
  ghost predicate StableSortedByBilling(input: seq<KeyedFact>, output: seq<KeyedFact>) {
    && NonIncreasing(output)
    && forall a :: WithBilling(output, a) == WithBilling(input, a)
  }

  // ---- Insertion ----

  lemma {:induction false} InsertPermutes(x: KeyedFact, t: seq<KeyedFact>)
    ensures multiset(Insert(x, t)) == multiset(t) + multiset{x}
    decreases |t|
  {
    if |t| > 0 && x.billing < t[0].billing {
      InsertPermutes(x, t[1..]);
      HeadTail(t);
    }
  }

  lemma {:induction false} InsertSorted(x: KeyedFact, t: seq<KeyedFact>)
    requires NonIncreasing(t)
    ensures NonIncreasing(Insert(x, t))
    decreases |t|
  {
    if |t| > 0 && x.billing < t[0].billing {
      InsertSorted(x, t[1..]);
      InsertPermutes(x, t[1..]);
      var r := Insert(x, t[1..]);
      forall z | z in r
        ensures t[0].billing >= z.billing
      {
        assert z in multiset(r);
        if z != x {
          assert z in multiset(t[1..]);
          var j :| 0 <= j < |t[1..]| && t[1..][j] == z;
          assert t[j + 1] == z;
        }
      }
      forall i, j | 0 <= i < j < |[t[0]] + r|
        ensures ([t[0]] + r)[i].billing >= ([t[0]] + r)[j].billing
      {
        if i == 0 {
          assert ([t[0]] + r)[j] in r;
        }
      }
    }
  }

  lemma WithBillingCons(x: KeyedFact, t: seq<KeyedFact>, a: int)
    ensures WithBilling([x] + t, a) == (if x.billing == a then [x] else []) + WithBilling(t, a)
  {
    ConsParts(x, t);
  }

  /** Inserting keeps, for every amount, the input order: the new element precedes the equal amounts already present. */
  lemma {:induction false} InsertStable(x: KeyedFact, t: seq<KeyedFact>, a: int)
    ensures WithBilling(Insert(x, t), a) == WithBilling([x] + t, a)
    decreases |t|
  {
    if |t| > 0 && x.billing < t[0].billing {
      InsertStable(x, t[1..], a);
      WithBillingCons(t[0], Insert(x, t[1..]), a);
      WithBillingCons(x, t[1..], a);
      WithBillingCons(x, t, a);
      HeadTail(t);
      WithBillingCons(t[0], t[1..], a);
    }
  }

  // ---- The sort ----

  /** The sort is a permutation of its input. */
  lemma {:induction false} SortPermutes(xs: seq<KeyedFact>)
    ensures multiset(SortByBilling(xs)) == multiset(xs)
    decreases |xs|
  {
    if |xs| > 0 {
      SortPermutes(xs[1..]);
      InsertPermutes(xs[0], SortByBilling(xs[1..]));
      HeadTail(xs);
    }
  }

  /** The sort is stable and puts the largest amounts first. */
  lemma {:induction false} SortIsStableDescending(xs: seq<KeyedFact>)
    ensures StableSortedByBilling(xs, SortByBilling(xs))
    decreases |xs|
  {
    if |xs| > 0 {
      SortIsStableDescending(xs[1..]);
      var rest := SortByBilling(xs[1..]);
      InsertSorted(xs[0], rest);
      forall a
        ensures WithBilling(SortByBilling(xs), a) == WithBilling(xs, a)
      {
        InsertStable(xs[0], rest, a);
        WithBillingCons(xs[0], rest, a);
        WithBillingCons(xs[0], xs[1..], a);
        HeadTail(xs);
      }
    }
  }

  /** A non-empty selection by amount comes from an element that carries that amount. */
  lemma {:induction false} WithBillingWitness(xs: seq<KeyedFact>, a: int) returns (i: nat)
    requires WithBilling(xs, a) != []
    ensures i < |xs| && xs[i].billing == a
    decreases |xs|
  {
    if xs[0].billing == a {
      i := 0;
    } else {
      var j := WithBillingWitness(xs[1..], a);
      i := j + 1;
    }
  }

  lemma WithBillingOwnAmount(xs: seq<KeyedFact>)
    requires |xs| > 0
    ensures WithBilling(xs, xs[0].billing) != []
  {
  }

  /**
   The specification determines the result: two lists that are both sorted
   largest first and agree, amount by amount, on the order of their elements
   are the same list. So any stable sort, the one Python runs included, gives
   the list `SortByBilling` gives.
   */
  lemma {:induction false} StableSortUnique(a: seq<KeyedFact>, b: seq<KeyedFact>)
    requires NonIncreasing(a) && NonIncreasing(b)
    requires forall k :: WithBilling(a, k) == WithBilling(b, k)
    ensures a == b
    decreases |a| + |b|
  {
    if |a| == 0 && |b| > 0 {
      assert false;
    } else if |a| > 0 && |b| == 0 {
      WithBillingOwnAmount(a);
      assert false;
    } else if |a| > 0 {
      var ka := a[0].billing;
      var kb := b[0].billing;
      var i := WithBillingWitness(b, ka);
      var j := WithBillingWitness(a, kb);
      assert ka == kb;
      assert WithBilling(a, ka)[0] == a[0];
      assert WithBilling(b, ka)[0] == b[0];
      assert a[0] == b[0];
      forall k
        ensures WithBilling(a[1..], k) == WithBilling(b[1..], k)
      {
        assert WithBilling(a, k) == WithBilling(b, k);
        if k == ka {
          assert WithBilling(a, k) == [a[0]] + WithBilling(a[1..], k);
          assert WithBilling(b, k) == [b[0]] + WithBilling(b[1..], k);
          assert WithBilling(a[1..], k) == WithBilling(a, k)[1..];
          assert WithBilling(b[1..], k) == WithBilling(b, k)[1..];
        } else {
          assert WithBilling(a, k) == WithBilling(a[1..], k);
          assert WithBilling(b, k) == WithBilling(b[1..], k);
        }
      }
      StableSortUnique(a[1..], b[1..]);
      HeadTail(a);
      HeadTail(b);
    }
  }

  /** Two stable sorts of the same input agree. */
  lemma StableSortsAgree(input: seq<KeyedFact>, o1: seq<KeyedFact>, o2: seq<KeyedFact>)
    requires StableSortedByBilling(input, o1) && StableSortedByBilling(input, o2)
    ensures o1 == o2
  {
    forall k
      ensures WithBilling(o1, k) == WithBilling(o2, k)
    {
    }
    StableSortUnique(o1, o2);
  }
  // ---- Properties of the posted facts ----

  /** The fact a billed service becomes, once posted. */
  function FactOf(s: ServiceBilling): Fact {
    Fact(Label(s.cents), s.serviceName)
  }

  /** A fact shown as a detail line, `f"　・{value}: {name}"`. */
  function FactLine(f: Fact): string {
    Bullet + f.value + ": " + f.name
  }

  /** Every keyed fact's label shows its own sort key. */
  ghost predicate WellLabelled(xs: seq<KeyedFact>) {
    forall i :: 0 <= i < |xs| ==> xs[i].name == Label(xs[i].billing)
  }

  lemma {:induction false} InsertMapPermutes<T>(f: KeyedFact -> T, x: KeyedFact, t: seq<KeyedFact>)
    ensures multiset(Map(f, Insert(x, t))) == multiset(Map(f, t)) + multiset{f(x)}
    decreases |t|
  {
    if |t| > 0 && x.billing < t[0].billing {
      InsertMapPermutes(f, x, t[1..]);
      MapConcat(f, [t[0]], Insert(x, t[1..]));
      MapConcat(f, [t[0]], t[1..]);
      HeadTail(t);
    } else {
      MapConcat(f, [x], t);
    }
  }

  /** Whatever is read off each element, the sorted list yields the same multiset of readings. */
  lemma {:induction false} SortMapPermutes<T>(f: KeyedFact -> T, xs: seq<KeyedFact>)
    ensures multiset(Map(f, SortByBilling(xs))) == multiset(Map(f, xs))
    decreases |xs|
  {
    if |xs| > 0 {
      SortMapPermutes(f, xs[1..]);
      InsertMapPermutes(f, xs[0], SortByBilling(xs[1..]));
      MapConcat(f, [xs[0]], xs[1..]);
      HeadTail(xs);
    }
  }

  lemma SortKeepsLabels(xs: seq<KeyedFact>)
    requires WellLabelled(xs)
    ensures WellLabelled(SortByBilling(xs))
  {
    var s := SortByBilling(xs);
    SortPermutes(xs);
    forall i | 0 <= i < |s|
      ensures s[i].name == Label(s[i].billing)
    {
      assert s[i] in multiset(xs);
      var j :| 0 <= j < |xs| && xs[j] == s[i];
    }
  }

  /**
   The posted facts are ordered by amount, largest first: each name is an
   amount label, and reading the labels back gives amounts that never
   increase. There is one fact per billed service.
   */
  lemma TeamsFactsDescending(services: seq<ServiceBilling>)
    ensures var facts := TeamsFacts(services);
      && |facts| == |Billed(services)|
      && (forall i :: 0 <= i < |facts| ==> ReadLabel(facts[i].name).Some?)
      && (forall i, j :: 0 <= i < j < |facts| ==>
            ReadLabel(facts[i].name).value >= ReadLabel(facts[j].name).value)
  {
    var keyed := CollectFacts(services);
    var sorted := SortByBilling(keyed);
    var facts := TeamsFacts(services);
    SortPermutes(keyed);
    SortIsStableDescending(keyed);
    SortKeepsLabels(keyed);
    assert |sorted| == |multiset(sorted)| == |multiset(keyed)| == |keyed|;
    forall i | 0 <= i < |facts|
      ensures ReadLabel(facts[i].name) == Some(sorted[i].billing)
    {
      ReadLabelOfLabel(sorted[i].billing);
    }
  }

  /** The posted facts are a permutation of the facts of the billed services in input order. */
  lemma TeamsFactsPermutation(services: seq<ServiceBilling>)
    ensures multiset(TeamsFacts(services)) == multiset(Map(FactOf, Billed(services)))
  {
    var keyed := CollectFacts(services);
    SortMapPermutes(StripKey, keyed);
    assert Map(StripKey, keyed) == Map(FactOf, Billed(services));
  }

  /**
   The facts hold exactly the services of the detail text: shown as detail
   lines, they are a permutation of the lines `get_message` writes, so each
   fact pairs a service with its own amount.
   */
  lemma TeamsFactsMatchDetails(services: seq<ServiceBilling>)
    ensures multiset(Map(FactLine, TeamsFacts(services))) == multiset(DetailLines(services))
  {
    var keyed := CollectFacts(services);
    var sorted := SortByBilling(keyed);
    var keyedLine := (k: KeyedFact) => FactLine(StripKey(k));
    SortMapPermutes(keyedLine, keyed);
    assert Map(FactLine, TeamsFacts(services)) == Map(keyedLine, sorted);
    assert Map(keyedLine, keyed) == DetailLines(services);
  }

  /** The facts whose label is `shown`, in list order. */
  function FactsLabelled(facts: seq<Fact>, shown: string): seq<Fact>
    decreases |facts|
  {
    if |facts| == 0 then []
    else (if facts[0].name == shown then [facts[0]] else []) + FactsLabelled(facts[1..], shown)
  }

  /** The services billed exactly `a` cents, in input order. */
  function ServicesBilled(services: seq<ServiceBilling>, a: int): seq<ServiceBilling>
    decreases |services|
  {
    if |services| == 0 then []
    else (if services[0].cents == a then [services[0]] else []) + ServicesBilled(services[1..], a)
  }

  lemma {:induction false} StripKeepsLabelled(xs: seq<KeyedFact>, a: int)
    requires WellLabelled(xs)
    ensures FactsLabelled(Map(StripKey, xs), Label(a)) == Map(StripKey, WithBilling(xs, a))
    decreases |xs|
  {
    if |xs| > 0 {
      assert WellLabelled(xs[1..]) by {
        forall i | 0 <= i < |xs| - 1
          ensures xs[1..][i].name == Label(xs[1..][i].billing)
        {
          assert xs[1..][i] == xs[i + 1];
        }
      }
      StripKeepsLabelled(xs[1..], a);
      var m := Map(StripKey, xs);
      LabelInjective(xs[0].billing, a);
      assert m[0].name == Label(xs[0].billing);
      MapTail(StripKey, xs);
      MapConcat(StripKey, if xs[0].billing == a then [xs[0]] else [], WithBilling(xs[1..], a));
    }
  }

  lemma {:induction false} CollectedWithBilling(services: seq<ServiceBilling>, a: int)
    ensures WithBilling(Map(ToKeyed, services), a) == Map(ToKeyed, ServicesBilled(services, a))
    decreases |services|
  {
    if |services| > 0 {
      CollectedWithBilling(services[1..], a);
      MapTail(ToKeyed, services);
      MapConcat(ToKeyed, if services[0].cents == a then [services[0]] else [], ServicesBilled(services[1..], a));
    }
  }

  /**
   Ties keep their input order: for every amount, the posted facts showing that
   amount are, in order, the facts of the billed services with that amount in
   the order Cost Explorer returned them.
   */
  lemma TeamsFactsStable(services: seq<ServiceBilling>, a: int)
    ensures FactsLabelled(TeamsFacts(services), Label(a)) == Map(FactOf, ServicesBilled(Billed(services), a))
  {
    var keyed := CollectFacts(services);
    var sorted := SortByBilling(keyed);
    SortIsStableDescending(keyed);
    SortKeepsLabels(keyed);
    StripKeepsLabelled(sorted, a);
    CollectedWithBilling(Billed(services), a);
    assert WithBilling(sorted, a) == WithBilling(keyed, a);
    assert Map(StripKey, Map(ToKeyed, ServicesBilled(Billed(services), a))) == Map(FactOf, ServicesBilled(Billed(services), a));
  }
  /** Largest amount first, zero amounts dropped, and the two 10.00 USD services in their input order. */
  lemma TeamsFactsExample()
    ensures TeamsFacts([ServiceBilling("EC2", 1000), ServiceBilling("S3", 0),
                        ServiceBilling("RDS", 501), ServiceBilling("Lambda", 1000)])
      == [Fact("10.00 USD", "EC2"), Fact("10.00 USD", "Lambda"), Fact("5.01 USD", "RDS")]
  {
    var s := [ServiceBilling("EC2", 1000), ServiceBilling("S3", 0),
              ServiceBilling("RDS", 501), ServiceBilling("Lambda", 1000)];
    var ec2 := ServiceBilling("EC2", 1000);
    var rds := ServiceBilling("RDS", 501);
    var lambda := ServiceBilling("Lambda", 1000);
    assert s[1..][1..][1..] == [lambda];
    assert s[1..][1..] == [rds, lambda];
    assert Billed(s) == [ec2, rds, lambda];
    var k := [ToKeyed(ec2), ToKeyed(rds), ToKeyed(lambda)];
    assert CollectFacts(s) == k;
    assert k[1..][1..] == [ToKeyed(lambda)];
    assert SortByBilling(k[1..][1..]) == [ToKeyed(lambda)];
    assert [ToKeyed(lambda)][1..] == [];
    assert Insert(ToKeyed(rds), [ToKeyed(lambda)]) == [ToKeyed(lambda), ToKeyed(rds)];
    assert SortByBilling(k[1..]) == [ToKeyed(lambda), ToKeyed(rds)];
    assert SortByBilling(k) == [ToKeyed(ec2), ToKeyed(lambda), ToKeyed(rds)];
    AmountExamples();
  }
}
