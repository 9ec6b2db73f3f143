/**
 * The settlement planner of fairsplit: the balances are split into
 * creditors (negative balance, kept as the positive sum they are owed) and
 * debtors (positive balance), and a two-cursor scan matches debtors against
 * creditors, recording one payment per step in a graph
 * debtor -> creditor -> amount.
 */
module Settlement {
  import opened Balances

  /** A debtor whose remaining sum falls below this is left alone. */
  const Threshold: real := 0.01

  /** A participant and the sum still to pay (a debtor) or to receive (a creditor). */
  datatype Party = Party(name: string, amount: real)

  /** Payments to make: debtor -> creditor -> amount. */
  type Graph = map<string, map<string, real>>

  /** The scan either finishes or indexes past the last creditor. */
  datatype Outcome = Settled(graph: Graph) | OutOfRange

  function Names(s: seq<Party>): set<string> {
    set p | p in s :: p.name
  }

  /** No name occurs twice. */
  ghost predicate Distinct(s: seq<Party>) {
    forall a, b :: 0 <= a < b < |s| ==> s[a].name != s[b].name
  }

  /** The sum of the amounts from position `i` on. */
  function SumFrom(s: seq<Party>, i: nat): real
    decreases |s| - i
  {
    if i >= |s| then 0.0 else s[i].amount + SumFrom(s, i + 1)
  }

  function Sum(s: seq<Party>): real {
    SumFrom(s, 0)
  }

  lemma {:induction false} SumFromAppend(s: seq<Party>, p: Party, i: nat)
    requires i <= |s|
    ensures SumFrom(s + [p], i) == SumFrom(s, i) + p.amount
    decreases |s| - i
  {
    if i < |s| {
      SumFromAppend(s, p, i + 1);
    }
  }

  lemma {:induction false} SumFromPositive(s: seq<Party>, i: nat)
    requires forall x :: 0 <= x < |s| ==> s[x].amount > 0.0
    ensures SumFrom(s, i) >= 0.0
    decreases |s| - i
  {
    if i < |s| {
      SumFromPositive(s, i + 1);
    }
  }

  /** Replacing the entry at `k` changes the sum by the difference of the two amounts. */
  lemma {:induction false} SumFromUpdate(s: seq<Party>, k: nat, p: Party, i: nat)
    requires k < |s| && i <= |s|
    ensures SumFrom(s[k := p], i) == SumFrom(s, i) - (if i <= k then s[k].amount - p.amount else 0.0)
    decreases |s| - i
  {
    if i < |s| {
      SumFromUpdate(s, k, p, i + 1);
    }
  }

  lemma SumUpdate(s: seq<Party>, k: nat, p: Party)
    requires k < |s|
    ensures Sum(s[k := p]) == Sum(s) - s[k].amount + p.amount
  {
    SumFromUpdate(s, k, p, 0);
  }

  /** Lists with the same amounts, position by position, have the same sum. */
  lemma {:induction false} SumFromSame(a: seq<Party>, b: seq<Party>, i: nat)
    requires |a| == |b| && forall x :: 0 <= x < |a| ==> a[x].amount == b[x].amount
    ensures SumFrom(a, i) == SumFrom(b, i)
    decreases |a| - i
  {
    if i < |a| {
      SumFromSame(a, b, i + 1);
    }
  }

  /** Amounts each below the threshold add up to less than the threshold per entry. */
  lemma {:induction false} SumFromBelow(s: seq<Party>, i: nat)
    requires i <= |s| && forall x :: 0 <= x < |s| ==> 0.0 <= s[x].amount < Threshold
    ensures 0.0 <= SumFrom(s, i) <= ((|s| - i) as real) * Threshold
    ensures i < |s| ==> SumFrom(s, i) < ((|s| - i) as real) * Threshold
    decreases |s| - i
  {
    if i < |s| {
      SumFromBelow(s, i + 1);
    }
  }

  /** A list without repeated names sums to the total of the map it lists. */
  lemma {:induction false} ListedTotal(P: seq<Party>, m: map<string, real>)
    requires Distinct(P) && m.Keys == Names(P)
    requires forall y :: 0 <= y < |P| ==> m[P[y].name] == P[y].amount
    ensures Total(m) == Sum(P)
    decreases |P|
  {
    if P == [] {
      assert m == map[];
    } else {
      var init, p := P[..|P| - 1], P[|P| - 1];
      assert P == init + [p];
      DistinctLast(init, p);
      var rest := m - {p.name};
      assert rest.Keys == Names(init);
      TotalRemove(m, p.name);
      ListedTotal(init, rest);
      SumFromAppend(init, p, 0);
    }
  }

  /** The last entry of a list without repeated names is named nowhere before it. */
  lemma DistinctLast(init: seq<Party>, p: Party)
    requires Distinct(init + [p])
    ensures Distinct(init) && p.name !in Names(init) && Names(init + [p]) == Names(init) + {p.name}
  {
    NamesAppend(init, p);
    forall q | q in init
      ensures q.name != p.name
    {
      var y :| 0 <= y < |init| && init[y] == q;
      assert (init + [p])[y] == q && (init + [p])[|init|] == p;
    }
    forall a, b | 0 <= a < b < |init|
      ensures init[a].name != init[b].name
    {
      assert (init + [p])[a] == init[a] && (init + [p])[b] == init[b];
    }
  }

  /** Lists naming the same names, position by position, name the same set. */
  lemma SameNames(a: seq<Party>, b: seq<Party>)
    requires |a| == |b| && forall x :: 0 <= x < |a| ==> a[x].name == b[x].name
    ensures Names(a) == Names(b)
    ensures Distinct(a) ==> Distinct(b)
  {
    forall n | n in Names(a)
      ensures n in Names(b)
    {
      var p :| p in a && p.name == n;
      var x :| 0 <= x < |a| && a[x] == p;
      assert b[x] in b;
    }
    forall n | n in Names(b)
      ensures n in Names(a)
    {
      var p :| p in b && p.name == n;
      var x :| 0 <= x < |b| && b[x] == p;
      assert a[x] in a;
    }
  }

  /** The names whose balance is not zero. */
  function NonZero(amends: map<string, real>): set<string> {
    set k | k in amends && amends[k] != 0.0
  }

  function Restrict(amends: map<string, real>, keys: set<string>): map<string, real> {
    map k | k in keys && k in amends :: amends[k]
  }

  /**
   * `creditors` and `debtors` list every non-zero balance exactly once:
   * a negative balance `v` as a creditor owed `-v`, a positive one as a
   * debtor owing `v`.
   */
  ghost predicate IsPartition(amends: map<string, real>, creditors: seq<Party>, debtors: seq<Party>) {
    && (forall p :: p in creditors ==> p.name in amends && amends[p.name] < 0.0 && p.amount == -amends[p.name])
    && (forall p :: p in debtors ==> p.name in amends && amends[p.name] > 0.0 && p.amount == amends[p.name])
    && (forall k :: k in amends && amends[k] < 0.0 ==> k in Names(creditors))
    && (forall k :: k in amends && amends[k] > 0.0 ==> k in Names(debtors))
    && Distinct(creditors) && Distinct(debtors)
  }

  /**
   * The keys of `amends` outside `left` have been partitioned: the
   * partition so far is `IsPartition` restricted to those keys.
   */
  ghost predicate PartitionedBut(amends: map<string, real>, left: set<string>, creditors: seq<Party>, debtors: seq<Party>) {
    && left <= amends.Keys
    && (forall p :: p in creditors ==>
          p.name in amends && p.name !in left && amends[p.name] < 0.0 && p.amount == -amends[p.name])
    && (forall p :: p in debtors ==>
          p.name in amends && p.name !in left && amends[p.name] > 0.0 && p.amount == amends[p.name])
    && (forall k :: k in amends && k !in left && amends[k] < 0.0 ==> k in Names(creditors))
    && (forall k :: k in amends && k !in left && amends[k] > 0.0 ==> k in Names(debtors))
    && Distinct(creditors) && Distinct(debtors)
  }

  /** The creditors after filing the balance `v` of `k`. */
  function WithCreditor(creditors: seq<Party>, k: string, v: real): seq<Party> {
    if v < 0.0 then creditors + [Party(k, -v)] else creditors
  }

  /** The debtors after filing the balance `v` of `k`. */
  function WithDebtor(debtors: seq<Party>, k: string, v: real): seq<Party> {
    if v > 0.0 then debtors + [Party(k, v)] else debtors
  }

  /** Filing one more key keeps the partition so far. */
  lemma PartitionStep(amends: map<string, real>, left: set<string>, creditors: seq<Party>, debtors: seq<Party>, k: string)
    requires PartitionedBut(amends, left, creditors, debtors) && k in left
    ensures PartitionedBut(amends, left - {k}, WithCreditor(creditors, k, amends[k]), WithDebtor(debtors, k, amends[k]))
  {
    var v := amends[k];
    if v < 0.0 {
      PartitionCreditor(amends, left, creditors, debtors, k);
    } else if v > 0.0 {
      PartitionDebtor(amends, left, creditors, debtors, k);
    }
  }

  /** A key owed money joins the creditors. */
  lemma PartitionCreditor(amends: map<string, real>, left: set<string>, creditors: seq<Party>, debtors: seq<Party>, k: string)
    requires PartitionedBut(amends, left, creditors, debtors) && k in left && amends[k] < 0.0
    ensures PartitionedBut(amends, left - {k}, creditors + [Party(k, -amends[k])], debtors)
  {
    NamesAppend(creditors, Party(k, -amends[k]));
    DistinctAppend(creditors, Party(k, -amends[k]));
  }

  /** A key that owes money joins the debtors. */
  lemma PartitionDebtor(amends: map<string, real>, left: set<string>, creditors: seq<Party>, debtors: seq<Party>, k: string)
    requires PartitionedBut(amends, left, creditors, debtors) && k in left && amends[k] > 0.0
    ensures PartitionedBut(amends, left - {k}, creditors, debtors + [Party(k, amends[k])])
  {
    NamesAppend(debtors, Party(k, amends[k]));
    DistinctAppend(debtors, Party(k, amends[k]));
  }

  lemma DistinctAppend(s: seq<Party>, p: Party)
    requires Distinct(s) && p.name !in Names(s)
    ensures Distinct(s + [p])
  {
    forall a | 0 <= a < |s|
      ensures s[a].name != p.name
    {
      assert s[a] in s;
    }
  }

  /** The loop invariant of `Partition`, bundled. */
  ghost predicate PartitionInv(amends: map<string, real>, left: set<string>, creditors: seq<Party>, debtors: seq<Party>) {
    && PartitionedBut(amends, left, creditors, debtors)
    && |creditors| + |debtors| == |NonZero(amends) - left|
    && Sum(debtors) - Sum(creditors) == Total(amends) - Total(Restrict(amends, left))
  }

  lemma PartitionInvStep(amends: map<string, real>, left: set<string>, creditors: seq<Party>, debtors: seq<Party>, k: string)
    requires PartitionInv(amends, left, creditors, debtors) && k in left
    ensures PartitionInv(amends, left - {k}, WithCreditor(creditors, k, amends[k]), WithDebtor(debtors, k, amends[k]))
  {
    var v := amends[k];
    PartitionStep(amends, left, creditors, debtors, k);
    NonZeroStep(amends, left, k);
    var rest, rest' := Total(Restrict(amends, left)), Total(Restrict(amends, left - {k}));
    assert rest == v + rest' by {
      RestrictRemove(amends, left, k);
    }
    WithSum(creditors, debtors, k, v);
  }

  /** Filing the balance `v` moves the debtors' sum minus the creditors' sum by `v`. */
  lemma WithSum(creditors: seq<Party>, debtors: seq<Party>, k: string, v: real)
    ensures Sum(WithDebtor(debtors, k, v)) - Sum(WithCreditor(creditors, k, v)) == Sum(debtors) - Sum(creditors) + v
  {
    SumFromAppend(creditors, Party(k, -v), 0);
    SumFromAppend(debtors, Party(k, v), 0);
  }

  lemma PartitionInvStart(amends: map<string, real>)
    ensures PartitionInv(amends, amends.Keys, [], [])
  {
    assert Restrict(amends, amends.Keys) == amends;
    assert NonZero(amends) - amends.Keys == {};
    assert Sum([]) == 0.0;
  }

  lemma PartitionInvDone(amends: map<string, real>, creditors: seq<Party>, debtors: seq<Party>)
    requires PartitionInv(amends, {}, creditors, debtors)
    ensures IsPartition(amends, creditors, debtors)
    ensures |creditors| + |debtors| == |NonZero(amends)|
    ensures Sum(debtors) - Sum(creditors) == Total(amends)
  {
    assert Restrict(amends, {}) == map[];
    assert NonZero(amends) - {} == NonZero(amends);
  }

  /**
   * The conversion loop over the balance map. Map iteration order is
   * arbitrary, so each key is picked arbitrarily among those not yet seen.
   */
  method Partition(amends: map<string, real>) returns (creditors: seq<Party>, debtors: seq<Party>)
    ensures IsPartition(amends, creditors, debtors)
    ensures |creditors| + |debtors| == |NonZero(amends)|
    ensures Sum(debtors) - Sum(creditors) == Total(amends)
  {
    creditors, debtors := [], [];
    var left := amends.Keys;
    PartitionInvStart(amends);
    while left != {}
      invariant PartitionInv(amends, left, creditors, debtors)
      decreases left
    {
      var k :| k in left;
      var v := amends[k];
      ghost var before := (creditors, debtors);
      if v < 0.0 {
        creditors := creditors + [Party(k, -v)];
      } else if v > 0.0 {
        debtors := debtors + [Party(k, v)];
      }
      assert creditors == WithCreditor(before.0, k, v) && debtors == WithDebtor(before.1, k, v);
      PartitionInvStep(amends, left, before.0, before.1, k);
      left := left - {k};
    }
    PartitionInvDone(amends, creditors, debtors);
  }

  lemma NamesAppend(s: seq<Party>, p: Party)
    ensures Names(s + [p]) == Names(s) + {p.name}
  {
  }

  lemma RestrictRemove(amends: map<string, real>, left: set<string>, k: string)
    requires k in left && left <= amends.Keys
    ensures Total(Restrict(amends, left)) == amends[k] + Total(Restrict(amends, left - {k}))
  {
    TotalRemove(Restrict(amends, left), k);
    assert Restrict(amends, left) - {k} == Restrict(amends, left - {k});
  }

  lemma NonZeroStep(amends: map<string, real>, left: set<string>, k: string)
    requires k in left && left <= amends.Keys
    ensures |NonZero(amends) - (left - {k})| == |NonZero(amends) - left| + (if amends[k] != 0.0 then 1 else 0)
  {
    if amends[k] != 0.0 {
      assert NonZero(amends) - (left - {k}) == (NonZero(amends) - left) + {k};
    } else {
      assert NonZero(amends) - (left - {k}) == NonZero(amends) - left;
    }
  }

  /** The graph holds a payment from `d` to `c`. */
  predicate Edge(g: Graph, d: string, c: string) {
    d in g && c in g[d]
  }

  /** All (debtor, creditor) pairs with a payment. */
  function Pairs(g: Graph): set<(string, string)> {
    set d, c | d in g && c in g[d] :: (d, c)
  }

  /** The payments `c` receives, by debtor. */
  ghost function Column(g: Graph, c: string): map<string, real> {
    map d | d in g && c in g[d] :: g[d][c]
  }

  /** What `c` receives in all. */
  ghost function Received(g: Graph, c: string): real {
    Total(Column(g, c))
  }

  /** What `d` pays in all. */
  ghost function Paid(g: Graph, d: string): real {
    if d in g then Total(g[d]) else 0.0
  }

  /** `g[d][c] = a`, creating the row of `d` when it is missing. */
  function Record(g: Graph, d: string, c: string, a: real): Graph {
    g[d := (if d in g then g[d] else map[])[c := a]]
  }

  /** Recording a new payment adds it and changes no other payment. */
  lemma RecordShape(g: Graph, d: string, c: string, a: real)
    requires !Edge(g, d, c)
    ensures var h := Record(g, d, c, a);
      && h.Keys == g.Keys + {d}
      && (forall e :: e in g && e != d ==> h[e] == g[e])
      && (forall e, f :: Edge(h, e, f) <==> Edge(g, e, f) || (e == d && f == c))
      && h[d][c] == a
      && (forall e, f :: Edge(g, e, f) ==> h[e][f] == g[e][f])
  {
  }

  /** Recording a new payment adds it to what the payer pays. */
  lemma RecordPaid(g: Graph, d: string, c: string, a: real)
    requires !Edge(g, d, c)
    ensures Paid(Record(g, d, c, a), d) == Paid(g, d) + a
  {
    var row := if d in g then g[d] else map[];
    TotalUpdate(row, c, a);
  }

  /** Recording a new payment adds it to what the payee receives, and to nobody else's. */
  lemma RecordReceived(g: Graph, d: string, c: string, a: real)
    requires !Edge(g, d, c)
    ensures Received(Record(g, d, c, a), c) == Received(g, c) + a
    ensures forall f :: f != c ==> Received(Record(g, d, c, a), f) == Received(g, f)
  {
    var h := Record(g, d, c, a);
    assert Column(h, c) == Column(g, c)[d := a] by {
      RecordColumn(g, d, c, a);
    }
    TotalUpdate(Column(g, c), d, a);
    forall f | f != c
      ensures Received(h, f) == Received(g, f)
    {
      RecordOtherColumn(g, d, c, a, f);
    }
  }

  lemma RecordColumn(g: Graph, d: string, c: string, a: real)
    requires !Edge(g, d, c)
    ensures Column(Record(g, d, c, a), c) == Column(g, c)[d := a]
  {
  }

  lemma RecordOtherColumn(g: Graph, d: string, c: string, a: real, f: string)
    requires f != c
    ensures Column(Record(g, d, c, a), f) == Column(g, f)
  {
  }

  /** Recording a payment adds its pair to the pairs of the graph. */
  lemma RecordPairsGrow(g: Graph, d: string, c: string, a: real)
    ensures Pairs(Record(g, d, c, a)) == Pairs(g) + {(d, c)}
  {
    var h := Record(g, d, c, a);
    forall x | x in Pairs(h)
      ensures x in Pairs(g) + {(d, c)}
    {
      var e, f :| e in h && f in h[e] && x == (e, f);
      if x != (d, c) {
        assert e in g && f in g[e];
      }
    }
    forall x | x in Pairs(g)
      ensures x in Pairs(h)
    {
      var e, f :| e in g && f in g[e] && x == (e, f);
      assert e in h && f in h[e];
    }
    assert (d, c) in Pairs(h);
  }

  /** Recording a new payment adds one pair. */
  lemma RecordPairs(g: Graph, d: string, c: string, a: real)
    requires !Edge(g, d, c)
    ensures |Pairs(Record(g, d, c, a))| == |Pairs(g)| + 1
  {
    RecordPairsGrow(g, d, c, a);
    assert (d, c) !in Pairs(g);
  }

  /** Recording a new payment leaves what everybody else pays as it was. */
  lemma RecordPaidOther(g: Graph, d: string, c: string, a: real, e: string)
    requires e != d
    ensures Paid(Record(g, d, c, a), e) == Paid(g, e)
  {
  }

  /**
   * What the scan is given: creditors and debtors with positive sums and
   * no name listed twice on either side, as `Partition` produces them.
   */
  ghost predicate WellFormed(creditors: seq<Party>, debtors: seq<Party>) {
    && (forall y :: 0 <= y < |creditors| ==> creditors[y].amount > 0.0)
    && (forall x :: 0 <= x < |debtors| ==> debtors[x].amount > 0.0)
    && Distinct(creditors) && Distinct(debtors)
  }

  /**
   * What a finished scan promises about the graph `g`, for creditors `C`
   * and debtors `D`.
   */
  ghost predicate IsPlan(C: seq<Party>, D: seq<Party>, g: Graph) {
    && DebtsPaid(D, g) && Shaped(C, D, g) && Bounded(C, g) && Saturating(C, D, g) && InOrder(C, g) && Few(C, D, g)
    && Leftover(C, D, g)
  }

  /** What each creditor is still owed once `g` is paid. */
  ghost function Shortfalls(C: seq<Party>, g: Graph): seq<Party> {
    seq(|C|, y requires 0 <= y < |C| => Party(C[y].name, C[y].amount - Received(g, C[y].name)))
  }

  /** What each debtor still owes once `g` is paid. */
  ghost function Residuals(D: seq<Party>, g: Graph): seq<Party> {
    seq(|D|, x requires 0 <= x < |D| => Party(D[x].name, D[x].amount - Paid(g, D[x].name)))
  }

  /**
   * The creditors are still owed in all what the debtors still owe in all,
   * plus what the creditors were owed beyond the debts to begin with; and
   * the debtors owe less than the threshold apiece.
   */
  ghost predicate Leftover(C: seq<Party>, D: seq<Party>, g: Graph) {
    && Sum(Shortfalls(C, g)) == Sum(Residuals(D, g)) + Sum(C) - Sum(D)
    && 0.0 <= Sum(Residuals(D, g))
    && (|D| > 0 ==> Sum(Residuals(D, g)) < (|D| as real) * Threshold)
  }

  /** A debtor gets a row exactly when the sum owed reaches the threshold, and pays all of it but less than the threshold. */
  ghost predicate DebtsPaid(D: seq<Party>, g: Graph) {
    && (forall x :: 0 <= x < |D| ==> (D[x].name in g <==> D[x].amount >= Threshold))
    && (forall x :: 0 <= x < |D| ==> 0.0 <= D[x].amount - Paid(g, D[x].name) < Threshold)
  }

  /** Rows belong to debtors and are never empty; payments go to creditors and are positive. */
  ghost predicate Shaped(C: seq<Party>, D: seq<Party>, g: Graph) {
    && (forall d :: d in g ==> d in Names(D) && g[d] != map[])
    && (forall d, c :: Edge(g, d, c) ==> c in Names(C) && g[d][c] > 0.0)
  }

  /** No creditor receives more than owed. */
  ghost predicate Bounded(C: seq<Party>, g: Graph) {
    forall y :: 0 <= y < |C| ==> 0.0 <= Received(g, C[y].name) <= C[y].amount
  }

  /** Every payment settles its debtor or its creditor in full. */
  ghost predicate Saturating(C: seq<Party>, D: seq<Party>, g: Graph) {
    forall x, y :: 0 <= x < |D| && 0 <= y < |C| && Edge(g, D[x].name, C[y].name) ==>
      Paid(g, D[x].name) == D[x].amount || Received(g, C[y].name) == C[y].amount
  }

  /** Creditors are served in list order: one that receives something comes after all that are paid in full. */
  ghost predicate InOrder(C: seq<Party>, g: Graph) {
    forall y1, y2 :: 0 <= y1 < y2 < |C| && Received(g, C[y2].name) > 0.0 ==>
      Received(g, C[y1].name) == C[y1].amount
  }

  /** Fewer payments than participants. */
  ghost predicate Few(C: seq<Party>, D: seq<Party>, g: Graph) {
    |C| + |D| > 0 ==> |Pairs(g)| < |C| + |D|
  }

  /**
   * The state of the scan: what each debtor (`puts`) and creditor (`gets`)
   * still has to pay or receive, the two cursors and the graph so far.
   */
  datatype Scan = Scan(puts: seq<Party>, gets: seq<Party>, i: nat, j: nat, g: Graph)

  /** The remaining sums against the original ones. */
  ghost predicate Amounts(C: seq<Party>, D: seq<Party>, s: Scan) {
    && |s.puts| == |D| && |s.gets| == |C| && s.i <= |D| && s.j <= |C|
    && (forall x :: 0 <= x < |D| ==> s.puts[x].name == D[x].name)
    && (forall y :: 0 <= y < |C| ==> s.gets[y].name == C[y].name)
    && (forall x :: 0 <= x < s.i ==> 0.0 <= s.puts[x].amount < Threshold)
    && (forall x :: s.i < x < |D| ==> s.puts[x] == D[x])
    && (s.i < |D| ==> 0.0 <= s.puts[s.i].amount <= D[s.i].amount)
    && (s.i < |D| && s.puts[s.i].amount < D[s.i].amount ==> D[s.i].amount >= Threshold)
    && (forall y :: 0 <= y < s.j ==> s.gets[y].amount == 0.0)
    && (forall y :: s.j < y < |C| ==> s.gets[y] == C[y])
    && (s.j < |C| ==> 0.0 < s.gets[s.j].amount <= C[s.j].amount)
  }

  /** The graph accounts for exactly what has been paid and received. */
  ghost predicate Books(C: seq<Party>, D: seq<Party>, s: Scan)
    requires |s.puts| == |D| && |s.gets| == |C|
  {
    && (forall x :: 0 <= x < |D| ==> Paid(s.g, D[x].name) == D[x].amount - s.puts[x].amount)
    && (forall y :: 0 <= y < |C| ==> Received(s.g, C[y].name) == C[y].amount - s.gets[y].amount)
  }

  /** The shape of the graph so far. */
  ghost predicate Links(C: seq<Party>, D: seq<Party>, s: Scan)
    requires |s.puts| == |D| && |s.gets| == |C|
  {
    Rows(D, s) && Owners(C, D, s) && Saturated(C, D, s) && Current(C, D, s)
  }

  /** Debtors before the current one have a row when they owed enough; the current one once it has paid. */
  ghost predicate Rows(D: seq<Party>, s: Scan)
    requires |s.puts| == |D|
  {
    forall x :: 0 <= x < |D| ==>
      (D[x].name in s.g <==> (x < s.i && D[x].amount >= Threshold) || (x == s.i && s.puts[x].amount < D[x].amount))
  }

  /** Rows belong to debtors and are not empty; payments go to creditors and are positive. */
  ghost predicate Owners(C: seq<Party>, D: seq<Party>, s: Scan) {
    Shaped(C, D, s.g)
  }

  /** Each payment has cleared its debtor or its creditor. */
  ghost predicate Saturated(C: seq<Party>, D: seq<Party>, s: Scan)
    requires |s.puts| == |D| && |s.gets| == |C|
  {
    forall x, y :: 0 <= x < |D| && 0 <= y < |C| && Edge(s.g, D[x].name, C[y].name) ==>
      s.puts[x].amount == 0.0 || s.gets[y].amount == 0.0
  }

  /** The current debtor has paid only creditors before the current one, unless it owes nothing more. */
  ghost predicate Current(C: seq<Party>, D: seq<Party>, s: Scan)
    requires |s.puts| == |D|
  {
    s.i < |D| ==> forall y :: 0 <= y < |C| && Edge(s.g, D[s.i].name, C[y].name) ==>
      y < s.j || s.puts[s.i].amount == 0.0
  }

  /** Every payment either moves the creditor cursor or settles a debtor. */
  ghost predicate Count(C: seq<Party>, D: seq<Party>, s: Scan, e: nat, h: bool)
    requires |s.puts| == |D|
  {
    && |Pairs(s.g)| == e + (if h then 1 else 0) + s.j
    && e <= s.i
    && (h ==> s.j < |C| && s.i < |D| && s.puts[s.i].amount == 0.0)
    && (|C| == 0 ==> e == 0)
  }

  /** What the debtors still owe, from the current one on. */
  ghost function Remaining(D: seq<Party>, s: Scan): real
    requires |s.puts| == |D|
  {
    if s.i < |D| then s.puts[s.i].amount + SumFrom(D, s.i + 1) else 0.0
  }

  /** What the creditors are still owed, from the current one on. */
  ghost function Capacity(C: seq<Party>, s: Scan): real
    requires |s.gets| == |C|
  {
    if s.j < |C| then s.gets[s.j].amount + SumFrom(C, s.j + 1) else 0.0
  }

  /** When the creditors are owed at least what the debtors owe, that stays so. */
  ghost predicate Feasible(C: seq<Party>, D: seq<Party>, s: Scan)
    requires |s.puts| == |D| && |s.gets| == |C|
  {
    Sum(D) <= Sum(C) ==> Remaining(D, s) <= Capacity(C, s)
  }

  /** Every payment takes the same amount off the debtors and off the creditors. */
  ghost predicate Even(C: seq<Party>, D: seq<Party>, s: Scan) {
    Sum(D) - Sum(s.puts) == Sum(C) - Sum(s.gets)
  }

  /** The invariant of both loops of the scan. */
  ghost predicate Holds(C: seq<Party>, D: seq<Party>, s: Scan, e: nat, h: bool) {
    && WellFormed(C, D)
    && Amounts(C, D, s) && Books(C, D, s) && Links(C, D, s) && Count(C, D, s, e, h) && Feasible(C, D, s)
    && Even(C, D, s)
  }

  /** Between two debtors: the next one is untouched. */
  ghost predicate Waiting(C: seq<Party>, D: seq<Party>, s: Scan, e: nat, h: bool)
    requires |s.puts| == |D|
  {
    && !h
    && (s.i < |D| ==> s.puts[s.i] == D[s.i])
    && (s.j == |C| && |C| > 0 ==> e < s.i)
  }

  /** The scan before the first debtor. */
  function Start(creditors: seq<Party>, debtors: seq<Party>): Scan {
    Scan(debtors, creditors, 0, 0, map[])
  }

  /** The current creditor is owed more: the debtor pays all and the creditor stays current. */
  function Split(s: Scan): Scan
    requires s.i < |s.puts| && s.j < |s.gets|
  {
    var put, get := s.puts[s.i], s.gets[s.j];
    Scan(s.puts[s.i := Party(put.name, 0.0)], s.gets[s.j := Party(get.name, get.amount - put.amount)],
         s.i, s.j, Record(s.g, put.name, get.name, put.amount))
  }

  /** The current creditor is owed no more: the debtor pays what is owed and the next creditor becomes current. */
  function Close(s: Scan): Scan
    requires s.i < |s.puts| && s.j < |s.gets|
  {
    var put, get := s.puts[s.i], s.gets[s.j];
    Scan(s.puts[s.i := Party(put.name, put.amount - get.amount)], s.gets[s.j := Party(get.name, 0.0)],
         s.i, s.j + 1, Record(s.g, put.name, get.name, get.amount))
  }

  /** One payment from the current debtor to the current creditor. */
  function Pay(s: Scan): Scan
    requires s.i < |s.puts| && s.j < |s.gets|
  {
    if s.gets[s.j].amount > s.puts[s.i].amount then Split(s) else Close(s)
  }

  /** The next debtor becomes current. */
  function Next(s: Scan): Scan {
    Scan(s.puts, s.gets, s.i + 1, s.j, s.g)
  }

  /** The state of a payment: the scan is at a debtor who still owes and a creditor who is still owed. */
  ghost predicate Paying(C: seq<Party>, D: seq<Party>, s: Scan) {
    Amounts(C, D, s) && s.i < |D| && s.puts[s.i].amount >= Threshold && s.j < |C|
  }

  /** The current debtor still owes enough to pay and a creditor is current. */
  ghost predicate CanPay(C: seq<Party>, D: seq<Party>, s: Scan, e: nat, h: bool) {
    Holds(C, D, s, e, h) && Paying(C, D, s)
  }

  lemma StartHolds(C: seq<Party>, D: seq<Party>)
    requires WellFormed(C, D)
    ensures Holds(C, D, Start(C, D), 0, false) && Waiting(C, D, Start(C, D), 0, false)
  {
    var s := Start(C, D);
    forall c
      ensures Received(s.g, c) == 0.0
    {
      assert Column(s.g, c) == map[];
    }
    assert Pairs(s.g) == {};
  }

  lemma SplitHolds(C: seq<Party>, D: seq<Party>, s: Scan, e: nat, h: bool)
    requires CanPay(C, D, s, e, h) && s.gets[s.j].amount > s.puts[s.i].amount
    ensures Holds(C, D, Split(s), e, true)
  {
    SplitAmounts(C, D, s);
    SplitBooks(C, D, s);
    SplitLinks(C, D, s, e, h);
    SplitCount(C, D, s, e, h);
    SplitFeasible(C, D, s);
    SplitEven(C, D, s);
  }

  lemma SplitAmounts(C: seq<Party>, D: seq<Party>, s: Scan)
    requires Paying(C, D, s) && s.gets[s.j].amount > s.puts[s.i].amount
    ensures Amounts(C, D, Split(s))
  {
  }

  lemma SplitBooks(C: seq<Party>, D: seq<Party>, s: Scan)
    requires WellFormed(C, D) && Paying(C, D, s) && Books(C, D, s) && Current(C, D, s)
    requires s.gets[s.j].amount > s.puts[s.i].amount
    ensures |Split(s).puts| == |D| && |Split(s).gets| == |C| && Books(C, D, Split(s))
  {
    var t := Split(s);
    var d, c, a := D[s.i].name, C[s.j].name, s.puts[s.i].amount;
    assert !Edge(s.g, d, c);
    RecordPaid(s.g, d, c, a);
    RecordReceived(s.g, d, c, a);
    forall x | 0 <= x < |D| && x != s.i
      ensures Paid(t.g, D[x].name) == Paid(s.g, D[x].name)
    {
      RecordPaidOther(s.g, d, c, a, D[x].name);
    }
  }

  lemma SplitLinks(C: seq<Party>, D: seq<Party>, s: Scan, e: nat, h: bool)
    requires CanPay(C, D, s, e, h) && s.gets[s.j].amount > s.puts[s.i].amount
    ensures |Split(s).puts| == |D| && |Split(s).gets| == |C| && Links(C, D, Split(s))
  {
    SplitRows(C, D, s, e, h);
    assert !Edge(s.g, D[s.i].name, C[s.j].name);
    SplitOwners(C, D, s);
    SplitSaturated(C, D, s, e, h);
    SplitCurrent(C, D, s, e, h);
  }

  lemma SplitRows(C: seq<Party>, D: seq<Party>, s: Scan, e: nat, h: bool)
    requires CanPay(C, D, s, e, h) && s.gets[s.j].amount > s.puts[s.i].amount
    ensures |Split(s).puts| == |D| && Rows(D, Split(s))
  {
    var d, c, a := D[s.i].name, C[s.j].name, s.puts[s.i].amount;
    assert !Edge(s.g, d, c);
    RecordShape(s.g, d, c, a);
  }

  lemma SplitOwners(C: seq<Party>, D: seq<Party>, s: Scan)
    requires |s.puts| == |D| && |s.gets| == |C| && s.i < |D| && s.j < |C|
    requires s.puts[s.i].name == D[s.i].name && s.gets[s.j].name == C[s.j].name
    requires Owners(C, D, s) && s.puts[s.i].amount > 0.0 && !Edge(s.g, D[s.i].name, C[s.j].name)
    ensures Owners(C, D, Split(s))
  {
    RecordShape(s.g, D[s.i].name, C[s.j].name, s.puts[s.i].amount);
    assert D[s.i] in D && C[s.j] in C;
  }

  lemma SplitSaturated(C: seq<Party>, D: seq<Party>, s: Scan, e: nat, h: bool)
    requires CanPay(C, D, s, e, h) && s.gets[s.j].amount > s.puts[s.i].amount
    ensures |Split(s).puts| == |D| && |Split(s).gets| == |C| && Saturated(C, D, Split(s))
  {
    var d, c, a := D[s.i].name, C[s.j].name, s.puts[s.i].amount;
    assert !Edge(s.g, d, c);
    RecordShape(s.g, d, c, a);
  }

  lemma SplitCurrent(C: seq<Party>, D: seq<Party>, s: Scan, e: nat, h: bool)
    requires CanPay(C, D, s, e, h) && s.gets[s.j].amount > s.puts[s.i].amount
    ensures |Split(s).puts| == |D| && Current(C, D, Split(s))
  {
    var d, c, a := D[s.i].name, C[s.j].name, s.puts[s.i].amount;
    assert !Edge(s.g, d, c);
    RecordShape(s.g, d, c, a);
  }

  lemma SplitCount(C: seq<Party>, D: seq<Party>, s: Scan, e: nat, h: bool)
    requires CanPay(C, D, s, e, h) && s.gets[s.j].amount > s.puts[s.i].amount
    ensures |Split(s).puts| == |D| && Count(C, D, Split(s), e, true)
  {
    var d, c, a := D[s.i].name, C[s.j].name, s.puts[s.i].amount;
    assert !Edge(s.g, d, c);
    RecordPairs(s.g, d, c, a);
  }

  lemma SplitFeasible(C: seq<Party>, D: seq<Party>, s: Scan)
    requires Paying(C, D, s) && Feasible(C, D, s) && s.gets[s.j].amount > s.puts[s.i].amount
    ensures |Split(s).puts| == |D| && |Split(s).gets| == |C| && Feasible(C, D, Split(s))
  {
  }

  lemma SplitEven(C: seq<Party>, D: seq<Party>, s: Scan)
    requires Paying(C, D, s) && Even(C, D, s) && s.gets[s.j].amount > s.puts[s.i].amount
    ensures Even(C, D, Split(s))
  {
    var put, get := s.puts[s.i], s.gets[s.j];
    SumUpdate(s.puts, s.i, Party(put.name, 0.0));
    SumUpdate(s.gets, s.j, Party(get.name, get.amount - put.amount));
  }

  lemma CloseHolds(C: seq<Party>, D: seq<Party>, s: Scan, e: nat, h: bool)
    requires CanPay(C, D, s, e, h) && s.gets[s.j].amount <= s.puts[s.i].amount
    ensures Holds(C, D, Close(s), e, h)
  {
    CloseAmounts(C, D, s);
    CloseBooks(C, D, s);
    CloseLinks(C, D, s, e, h);
    CloseCount(C, D, s, e, h);
    CloseFeasible(C, D, s);
    CloseEven(C, D, s);
  }

  lemma CloseAmounts(C: seq<Party>, D: seq<Party>, s: Scan)
    requires WellFormed(C, D) && Paying(C, D, s) && s.gets[s.j].amount <= s.puts[s.i].amount
    ensures Amounts(C, D, Close(s))
  {
  }

  lemma CloseBooks(C: seq<Party>, D: seq<Party>, s: Scan)
    requires WellFormed(C, D) && Paying(C, D, s) && Books(C, D, s) && Current(C, D, s)
    requires s.gets[s.j].amount <= s.puts[s.i].amount
    ensures |Close(s).puts| == |D| && |Close(s).gets| == |C| && Books(C, D, Close(s))
  {
    var t := Close(s);
    var d, c, a := D[s.i].name, C[s.j].name, s.gets[s.j].amount;
    assert !Edge(s.g, d, c);
    RecordPaid(s.g, d, c, a);
    RecordReceived(s.g, d, c, a);
    forall x | 0 <= x < |D| && x != s.i
      ensures Paid(t.g, D[x].name) == Paid(s.g, D[x].name)
    {
      RecordPaidOther(s.g, d, c, a, D[x].name);
    }
  }

  lemma CloseLinks(C: seq<Party>, D: seq<Party>, s: Scan, e: nat, h: bool)
    requires CanPay(C, D, s, e, h) && s.gets[s.j].amount <= s.puts[s.i].amount
    ensures |Close(s).puts| == |D| && |Close(s).gets| == |C| && Links(C, D, Close(s))
  {
    CloseRows(C, D, s, e, h);
    assert !Edge(s.g, D[s.i].name, C[s.j].name);
    CloseOwners(C, D, s);
    CloseSaturated(C, D, s, e, h);
    CloseCurrent(C, D, s, e, h);
  }

  lemma CloseRows(C: seq<Party>, D: seq<Party>, s: Scan, e: nat, h: bool)
    requires CanPay(C, D, s, e, h) && s.gets[s.j].amount <= s.puts[s.i].amount
    ensures |Close(s).puts| == |D| && Rows(D, Close(s))
  {
    var d, c, a := D[s.i].name, C[s.j].name, s.gets[s.j].amount;
    assert !Edge(s.g, d, c);
    RecordShape(s.g, d, c, a);
  }

  lemma CloseOwners(C: seq<Party>, D: seq<Party>, s: Scan)
    requires |s.puts| == |D| && |s.gets| == |C| && s.i < |D| && s.j < |C|
    requires s.puts[s.i].name == D[s.i].name && s.gets[s.j].name == C[s.j].name
    requires Owners(C, D, s) && s.gets[s.j].amount > 0.0 && !Edge(s.g, D[s.i].name, C[s.j].name)
    ensures Owners(C, D, Close(s))
  {
    RecordShape(s.g, D[s.i].name, C[s.j].name, s.gets[s.j].amount);
    assert D[s.i] in D && C[s.j] in C;
  }

  lemma CloseSaturated(C: seq<Party>, D: seq<Party>, s: Scan, e: nat, h: bool)
    requires CanPay(C, D, s, e, h) && s.gets[s.j].amount <= s.puts[s.i].amount
    ensures |Close(s).puts| == |D| && |Close(s).gets| == |C| && Saturated(C, D, Close(s))
  {
    var d, c, a := D[s.i].name, C[s.j].name, s.gets[s.j].amount;
    assert !Edge(s.g, d, c);
    RecordShape(s.g, d, c, a);
  }

  lemma CloseCurrent(C: seq<Party>, D: seq<Party>, s: Scan, e: nat, h: bool)
    requires CanPay(C, D, s, e, h) && s.gets[s.j].amount <= s.puts[s.i].amount
    ensures |Close(s).puts| == |D| && Current(C, D, Close(s))
  {
    var d, c, a := D[s.i].name, C[s.j].name, s.gets[s.j].amount;
    assert !Edge(s.g, d, c);
    RecordShape(s.g, d, c, a);
  }

  lemma CloseCount(C: seq<Party>, D: seq<Party>, s: Scan, e: nat, h: bool)
    requires CanPay(C, D, s, e, h) && s.gets[s.j].amount <= s.puts[s.i].amount
    ensures |Close(s).puts| == |D| && Count(C, D, Close(s), e, h)
  {
    var d, c, a := D[s.i].name, C[s.j].name, s.gets[s.j].amount;
    assert !Edge(s.g, d, c);
    RecordPairs(s.g, d, c, a);
  }

  lemma CloseFeasible(C: seq<Party>, D: seq<Party>, s: Scan)
    requires Paying(C, D, s) && Feasible(C, D, s) && s.gets[s.j].amount <= s.puts[s.i].amount
    ensures |Close(s).puts| == |D| && |Close(s).gets| == |C| && Feasible(C, D, Close(s))
  {
  }

  lemma CloseEven(C: seq<Party>, D: seq<Party>, s: Scan)
    requires Paying(C, D, s) && Even(C, D, s) && s.gets[s.j].amount <= s.puts[s.i].amount
    ensures Even(C, D, Close(s))
  {
    var put, get := s.puts[s.i], s.gets[s.j];
    SumUpdate(s.puts, s.i, Party(put.name, put.amount - get.amount));
    SumUpdate(s.gets, s.j, Party(get.name, 0.0));
  }

  /** The current debtor owes less than the threshold: move on to the next one. */
  lemma NextHolds(C: seq<Party>, D: seq<Party>, s: Scan, e: nat, h: bool)
    requires Holds(C, D, s, e, h) && s.i < |D| && s.puts[s.i].amount < Threshold
    ensures Holds(C, D, Next(s), e + (if h then 1 else 0), false) && Waiting(C, D, Next(s), e + (if h then 1 else 0), false)
  {
    NextAmounts(C, D, s, e, h);
    NextRows(C, D, s, e, h);
    NextCurrent(C, D, s, e, h);
    NextCount(C, D, s, e, h);
    NextFeasible(C, D, s);
    assert Books(C, D, Next(s)) && Owners(C, D, Next(s)) && Saturated(C, D, Next(s));
  }

  lemma NextAmounts(C: seq<Party>, D: seq<Party>, s: Scan, e: nat, h: bool)
    requires Holds(C, D, s, e, h) && s.i < |D| && s.puts[s.i].amount < Threshold
    ensures Amounts(C, D, Next(s))
  {
  }

  lemma NextRows(C: seq<Party>, D: seq<Party>, s: Scan, e: nat, h: bool)
    requires Holds(C, D, s, e, h) && s.i < |D| && s.puts[s.i].amount < Threshold
    ensures |Next(s).puts| == |D| && Rows(D, Next(s))
  {
  }

  lemma NextCurrent(C: seq<Party>, D: seq<Party>, s: Scan, e: nat, h: bool)
    requires Holds(C, D, s, e, h) && s.i < |D| && s.puts[s.i].amount < Threshold
    ensures |Next(s).puts| == |D| && Current(C, D, Next(s))
  {
  }

  lemma NextCount(C: seq<Party>, D: seq<Party>, s: Scan, e: nat, h: bool)
    requires Holds(C, D, s, e, h) && s.i < |D| && s.puts[s.i].amount < Threshold
    ensures |Next(s).puts| == |D| && Count(C, D, Next(s), e + (if h then 1 else 0), false) && Waiting(C, D, Next(s), e + (if h then 1 else 0), false)
  {
  }

  lemma NextFeasible(C: seq<Party>, D: seq<Party>, s: Scan)
    requires |s.puts| == |D| && |s.gets| == |C| && s.i < |D| && Feasible(C, D, s)
    requires 0.0 <= s.puts[s.i].amount && (s.i + 1 < |D| ==> s.puts[s.i + 1] == D[s.i + 1])
    ensures |Next(s).puts| == |D| && |Next(s).gets| == |C| && Feasible(C, D, Next(s))
  {
    assert Remaining(D, Next(s)) == SumFrom(D, s.i + 1) <= Remaining(D, s);
  }

  /** Running out of creditors while a debtor still owes enough means the debtors owed more. */
  lemma Overrun(C: seq<Party>, D: seq<Party>, s: Scan)
    requires WellFormed(C, D) && Amounts(C, D, s) && Feasible(C, D, s)
    requires s.i < |D| && s.puts[s.i].amount >= Threshold && s.j >= |C|
    ensures Sum(D) > Sum(C)
  {
    SumFromPositive(D, s.i + 1);
  }

  /** After the last debtor the graph is a plan. */
  lemma Finish(C: seq<Party>, D: seq<Party>, s: Scan, e: nat, h: bool)
    requires Holds(C, D, s, e, h) && Waiting(C, D, s, e, h) && s.i == |D|
    ensures IsPlan(C, D, s.g)
  {
    FinishDebts(C, D, s);
    FinishCredits(C, D, s);
    FinishLeftover(C, D, s);
    assert Shaped(C, D, s.g) && Few(C, D, s.g);
  }

  lemma FinishLeftover(C: seq<Party>, D: seq<Party>, s: Scan)
    requires Amounts(C, D, s) && Books(C, D, s) && Even(C, D, s) && DebtsPaid(D, s.g)
    ensures Leftover(C, D, s.g)
  {
    var short, rest := Shortfalls(C, s.g), Residuals(D, s.g);
    SumFromSame(short, s.gets, 0);
    SumFromSame(rest, s.puts, 0);
    SumFromBelow(rest, 0);
  }

  lemma FinishDebts(C: seq<Party>, D: seq<Party>, s: Scan)
    requires Amounts(C, D, s) && Books(C, D, s) && Rows(D, s) && s.i == |D|
    ensures DebtsPaid(D, s.g)
  {
  }

  lemma FinishCredits(C: seq<Party>, D: seq<Party>, s: Scan)
    requires WellFormed(C, D) && Amounts(C, D, s) && Books(C, D, s) && Saturated(C, D, s)
    ensures Bounded(C, s.g) && Saturating(C, D, s.g) && InOrder(C, s.g)
  {
  }

  /**
   * The scan as a function: from state `s` to the outcome. This is the
   * reference definition that `Settle` follows step by step.
   */
  function Drive(s: Scan): Outcome
    decreases |s.puts| - s.i, |s.gets| - s.j, if s.i < |s.puts| && s.puts[s.i].amount >= Threshold then 1 else 0
  {
    if s.i >= |s.puts| then Settled(s.g)
    else if s.puts[s.i].amount < Threshold then Drive(Next(s))
    else if s.j >= |s.gets| then OutOfRange
    else Drive(Pay(s))
  }

  /** Every state the scan reaches from the invariant leads to an outcome as promised. */
  lemma {:induction false} DriveSettles(C: seq<Party>, D: seq<Party>, s: Scan, e: nat, h: bool)
    requires Holds(C, D, s, e, h) && (s.i == |D| ==> Waiting(C, D, s, e, h))
    ensures Fulfils(C, D, Drive(s))
    decreases |s.puts| - s.i, |s.gets| - s.j, if s.i < |s.puts| && s.puts[s.i].amount >= Threshold then 1 else 0
  {
    if s.i >= |s.puts| {
      Finish(C, D, s, e, h);
      assert Drive(s) == Settled(s.g);
    } else if s.puts[s.i].amount < Threshold {
      NextHolds(C, D, s, e, h);
      assert Drive(s) == Drive(Next(s));
      DriveSettles(C, D, Next(s), e + (if h then 1 else 0), false);
    } else if s.j >= |s.gets| {
      Overrun(C, D, s);
      assert Drive(s) == OutOfRange;
    } else if s.gets[s.j].amount > s.puts[s.i].amount {
      SplitHolds(C, D, s, e, h);
      assert Drive(s) == Drive(Split(s)) by {
        assert Pay(s) == Split(s);
      }
      DriveSettles(C, D, Split(s), e, true);
    } else {
      CloseHolds(C, D, s, e, h);
      assert Drive(s) == Drive(Close(s)) by {
        assert Pay(s) == Close(s);
      }
      DriveSettles(C, D, Close(s), e, h);
    }
  }

  /**
   * An outcome of the scan is `OutOfRange` only when the debtors owe more
   * than the creditors are owed, and is otherwise a plan.
   */
  ghost predicate Fulfils(C: seq<Party>, D: seq<Party>, r: Outcome) {
    && (Sum(D) <= Sum(C) ==> r.Settled?)
    && (r.Settled? ==> IsPlan(C, D, r.graph))
  }

  /** From the start, the scan settles whenever the creditors are owed enough, and then yields a plan. */
  lemma Settles(C: seq<Party>, D: seq<Party>)
    requires WellFormed(C, D)
    ensures Sum(D) <= Sum(C) ==> Drive(Start(C, D)).Settled?
    ensures Drive(Start(C, D)).Settled? ==> IsPlan(C, D, Drive(Start(C, D)).graph)
  {
    StartHolds(C, D);
    DriveSettles(C, D, Start(C, D), 0, false);
  }

  /** Creating the missing row first and then setting the payment records it. */
  lemma RecordRow(g0: Graph, g: Graph, d: string, c: string, a: real)
    requires g == if d in g0 then g0 else g0[d := map[]]
    ensures d in g && g[d := g[d][c := a]] == Record(g0, d, c, a)
  {
  }

  /**
   * One payment on the arrays: `puts[i]` pays `gets[j]` and the payment is
   * recorded in the row of `puts[i]`, which the caller has created in `g0`
   * when it was missing, giving `g`.
   */
  method PayOne(puts: array<Party>, gets: array<Party>, i: nat, j: nat, ghost g0: Graph, g: Graph) returns (j': nat, g': Graph)
    requires puts != gets && i < puts.Length && j < gets.Length
    requires g == if puts[i].name in g0 then g0 else g0[puts[i].name := map[]]
    modifies puts, gets
    ensures Scan(puts[..], gets[..], i, j', g') == Pay(Scan(old(puts[..]), old(gets[..]), i, j, g0))
  {
    var put, get := puts[i], gets[j];
    if get.amount > put.amount {
      RecordRow(g0, g, put.name, get.name, put.amount);
      g' := g[put.name := g[put.name][get.name := put.amount]];
      gets[j] := Party(get.name, get.amount - put.amount);
      puts[i] := Party(put.name, 0.0);
      j' := j;
    } else {
      RecordRow(g0, g, put.name, get.name, get.amount);
      g' := g[put.name := g[put.name][get.name := get.amount]];
      puts[i] := Party(put.name, put.amount - get.amount);
      gets[j] := Party(get.name, 0.0);
      j' := j + 1;
    }
  }

  /**
   * The settlement loop. The sums left are copied into two arrays that the
   * scan updates in place: `puts` for the debtors, `gets` for the creditors.
   * For each debtor in turn, as long as the sum still owed reaches the
   * threshold, the current creditor is paid either all that the debtor owes
   * (when owed more) or all that the creditor is owed (when owed no more, and
   * then the next creditor becomes current). Indexing past the last creditor
   * is the outcome `OutOfRange`.
   */
  method Settle(creditors: seq<Party>, debtors: seq<Party>) returns (r: Outcome)
    ensures r == Drive(Start(creditors, debtors))
  {
    var gets := new Party[|creditors|](y requires 0 <= y < |creditors| => creditors[y]);
    var puts := new Party[|debtors|](x requires 0 <= x < |debtors| => debtors[x]);
    assert gets[..] == creditors && puts[..] == debtors;
    var g: Graph := map[];
    var i: nat, j: nat := 0, 0;
    while i < puts.Length
      invariant Drive(Scan(puts[..], gets[..], i, j, g)) == Drive(Start(creditors, debtors))
      decreases puts.Length - i
    {
      while puts[i].amount >= Threshold
        invariant Drive(Scan(puts[..], gets[..], i, j, g)) == Drive(Start(creditors, debtors))
        decreases gets.Length - j, if puts[i].amount >= Threshold then 1 else 0
      {
        ghost var g0 := g;
        if puts[i].name !in g {
          g := g[puts[i].name := map[]];
        }
        if j >= gets.Length {
          return OutOfRange;
        }
        j, g := PayOne(puts, gets, i, j, g0, g);
      }
      i := i + 1;
    }
    return Settled(g);
  }

  /** What `Partition` produces is what the scan expects. */
  lemma PartitionWellFormed(amends: map<string, real>, creditors: seq<Party>, debtors: seq<Party>)
    requires IsPartition(amends, creditors, debtors)
    ensures WellFormed(creditors, debtors)
  {
    forall y | 0 <= y < |creditors|
      ensures creditors[y].amount > 0.0
    {
      assert creditors[y] in creditors;
    }
    forall x | 0 <= x < |debtors|
      ensures debtors[x].amount > 0.0
    {
      assert debtors[x] in debtors;
    }
  }

  /**
   * One payment is the smaller of what the debtor owes and what the creditor
   * is owed; it is taken off both, leaves neither negative and clears at
   * least one of them, and the creditor cursor moves exactly when the
   * creditor is cleared.
   */
  lemma PayIsMin(s: Scan)
    requires s.i < |s.puts| && s.j < |s.gets|
    requires 0.0 <= s.puts[s.i].amount && 0.0 < s.gets[s.j].amount
    ensures var t, p, q := Pay(s), s.puts[s.i], s.gets[s.j];
      var a := if q.amount < p.amount then q.amount else p.amount;
      && Edge(t.g, p.name, q.name) && t.g[p.name][q.name] == a
      && t.puts == s.puts[s.i := Party(p.name, p.amount - a)]
      && t.gets == s.gets[s.j := Party(q.name, q.amount - a)]
      && t.puts[s.i].amount >= 0.0 && t.gets[s.j].amount >= 0.0
      && (t.puts[s.i].amount == 0.0 || t.gets[s.j].amount == 0.0)
      && (t.j == s.j + 1 <==> t.gets[s.j].amount == 0.0)
      && (t.j == s.j || t.j == s.j + 1)
  {
  }
}
