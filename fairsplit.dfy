/**
 * `buildGraphInteractively` of fairsplit, from the lines read to the graph
 * of payments: the ledger is accumulated, the balances are partitioned into
 * creditors and debtors, and the greedy scan matches them. The result is
 * stated against the balances alone, whatever order the map iteration
 * yields the names in.
 */
module Fairsplit {
  import opened Balances
  import opened Ledger
  import opened Settlement

  /** `c` is owed money and has received some of it, but not all. */
  ghost predicate PartlyPaid(amends: map<string, real>, g: Graph, c: string) {
    c in amends && amends[c] < 0.0 && 0.0 < Received(g, c) < -amends[c]
  }

  /** `g` settles the balances `amends` as the greedy scan does. */
  ghost predicate IsPlanFor(amends: map<string, real>, g: Graph) {
    Payments(amends, g) && LeftOwed(amends, g)
  }

  /** The payments of `g`, against the balances `amends`. */
  ghost predicate Payments(amends: map<string, real>, g: Graph) {
    // every debtor pays what it owes, short of less than the threshold,
    // and has a row exactly when it owes at least the threshold
    && (forall d :: d in amends && amends[d] > 0.0 ==>
          (d in g <==> amends[d] >= Threshold) && 0.0 <= amends[d] - Paid(g, d) < Threshold)
    // rows belong to such debtors and are never empty
    && (forall d :: d in g ==> d in amends && amends[d] >= Threshold && g[d] != map[])
    // payments are positive and go to names that are owed money
    && (forall d, c :: Edge(g, d, c) ==> c in amends && amends[c] < 0.0 && g[d][c] > 0.0)
    // nobody receives more than owed
    && (forall c :: c in amends && amends[c] < 0.0 ==> 0.0 <= Received(g, c) <= -amends[c])
    // every payment settles its debtor or its creditor in full
    && (forall d, c :: Edge(g, d, c) ==> Paid(g, d) == amends[d] || Received(g, c) == -amends[c])
    // at most one creditor is left partly paid
    && (forall c1, c2 :: PartlyPaid(amends, g, c1) && PartlyPaid(amends, g, c2) ==> c1 == c2)
    // fewer payments than names with a non-zero balance
    && (NonZero(amends) != {} ==> |Pairs(g)| < |NonZero(amends)|)
  }

  /** What is still owed once `g` is paid. */
  ghost predicate LeftOwed(amends: map<string, real>, g: Graph) {
    // what the creditors are still owed in all is what the debtors still
    // owe in all, less the sum of the balances; that is below the
    // threshold per name with a non-zero balance
    && Total(Owed(amends, g)) == Total(Owing(amends, g)) - Total(amends)
    && 0.0 <= Total(Owing(amends, g))
    && (NonZero(amends) != {} ==> Total(Owing(amends, g)) < (|NonZero(amends)| as real) * Threshold)
  }

  /** What each name owed money is still owed once `g` is paid. */
  ghost function Owed(amends: map<string, real>, g: Graph): map<string, real> {
    map c | c in amends && amends[c] < 0.0 :: -amends[c] - Received(g, c)
  }

  /** What each name that owes money still owes once `g` is paid. */
  ghost function Owing(amends: map<string, real>, g: Graph): map<string, real> {
    map d | d in amends && amends[d] > 0.0 :: amends[d] - Paid(g, d)
  }

  /** The shortfalls of the creditors of a partition add up to the total of `Owed`. */
  lemma OwedTotal(amends: map<string, real>, C: seq<Party>, D: seq<Party>, g: Graph)
    requires IsPartition(amends, C, D)
    ensures Total(Owed(amends, g)) == Sum(Shortfalls(C, g))
  {
    var short := Shortfalls(C, g);
    SameNames(C, short);
    OwedEntries(amends, C, D, g);
    ListedTotal(short, Owed(amends, g));
  }

  lemma OwedEntries(amends: map<string, real>, C: seq<Party>, D: seq<Party>, g: Graph)
    requires IsPartition(amends, C, D)
    ensures Owed(amends, g).Keys == Names(C)
    ensures forall y :: 0 <= y < |C| ==> Owed(amends, g)[C[y].name] == Shortfalls(C, g)[y].amount
  {
    var m := Owed(amends, g);
    forall y | 0 <= y < |C|
      ensures C[y].name in m && m[C[y].name] == Shortfalls(C, g)[y].amount
    {
      assert C[y] in C;
    }
    forall c | c in Names(C)
      ensures c in m
    {
      var p :| p in C && p.name == c;
    }
  }

  /** The residuals of the debtors of a partition add up to the total of `Owing`. */
  lemma OwingTotal(amends: map<string, real>, C: seq<Party>, D: seq<Party>, g: Graph)
    requires IsPartition(amends, C, D)
    ensures Total(Owing(amends, g)) == Sum(Residuals(D, g))
  {
    var rest := Residuals(D, g);
    SameNames(D, rest);
    OwingEntries(amends, C, D, g);
    ListedTotal(rest, Owing(amends, g));
  }

  lemma OwingEntries(amends: map<string, real>, C: seq<Party>, D: seq<Party>, g: Graph)
    requires IsPartition(amends, C, D)
    ensures Owing(amends, g).Keys == Names(D)
    ensures forall x :: 0 <= x < |D| ==> Owing(amends, g)[D[x].name] == Residuals(D, g)[x].amount
  {
    var m := Owing(amends, g);
    forall x | 0 <= x < |D|
      ensures D[x].name in m && m[D[x].name] == Residuals(D, g)[x].amount
    {
      assert D[x] in D;
    }
    forall d | d in Names(D)
      ensures d in m
    {
      var p :| p in D && p.name == d;
    }
  }

  /** A name in the list has a position in it. */
  lemma IndexOf(s: seq<Party>, n: string) returns (x: nat)
    requires n in Names(s)
    ensures x < |s| && s[x].name == n
  {
    var p :| p in s && p.name == n;
    x :| 0 <= x < |s| && s[x] == p;
  }

  /** A plan for a partition of the balances is a plan for the balances. */
  lemma PlanForBalances(amends: map<string, real>, C: seq<Party>, D: seq<Party>, g: Graph)
    requires IsPartition(amends, C, D) && |C| + |D| == |NonZero(amends)|
    requires Sum(D) - Sum(C) == Total(amends)
    requires IsPlan(C, D, g)
    ensures IsPlanFor(amends, g)
  {
    OwedTotal(amends, C, D, g);
    OwingTotal(amends, C, D, g);
    forall d | d in amends && amends[d] > 0.0
      ensures (d in g <==> amends[d] >= Threshold) && 0.0 <= amends[d] - Paid(g, d) < Threshold
    {
      var x := IndexOf(D, d);
      assert D[x] in D;
    }
    forall d | d in g
      ensures d in amends && amends[d] >= Threshold && g[d] != map[]
    {
      var x := IndexOf(D, d);
      assert D[x] in D;
    }
    forall d, c | Edge(g, d, c)
      ensures c in amends && amends[c] < 0.0 && g[d][c] > 0.0
    {
      var y := IndexOf(C, c);
      assert C[y] in C;
    }
    forall c | c in amends && amends[c] < 0.0
      ensures 0.0 <= Received(g, c) <= -amends[c]
    {
      var y := IndexOf(C, c);
      assert C[y] in C;
    }
    forall d, c | Edge(g, d, c)
      ensures Paid(g, d) == amends[d] || Received(g, c) == -amends[c]
    {
      var x := IndexOf(D, d);
      var y := IndexOf(C, c);
      assert D[x] in D && C[y] in C;
    }
    forall c1, c2 | PartlyPaid(amends, g, c1) && PartlyPaid(amends, g, c2)
      ensures c1 == c2
    {
      var y1 := IndexOf(C, c1);
      var y2 := IndexOf(C, c2);
      assert C[y1] in C && C[y2] in C;
    }
  }

  /**
   * `buildGraphInteractively` over lines already split into fields: the
   * read loop, the partition and the settlement.
   */
  method BuildGraph(lines: seq<seq<Field>>) returns (g: Graph)
    ensures IsPlanFor(Amends(lines), g)
    ensures Total(Owed(Amends(lines), g)) == Total(Owing(Amends(lines), g))
  {
    var amends := Accumulate(lines);
    var creditors, debtors := Partition(amends);
    PartitionWellFormed(amends, creditors, debtors);
    var r := Settle(creditors, debtors);
    Settles(creditors, debtors);
    g := r.graph;
    PlanForBalances(amends, creditors, debtors, g);
  }

  /**
   * The rule of `printTransactions`: the plan is empty, and "ALL IS WELL" is
   * printed, exactly when no balance reaches the threshold.
   */
  lemma AllIsWell(amends: map<string, real>, g: Graph)
    requires IsPlanFor(amends, g)
    ensures g == map[] <==> forall d :: d in amends ==> amends[d] < Threshold
  {
    if g != map[] {
      var d :| d in g;
      assert d in amends && amends[d] >= Threshold;
    } else {
      forall d | d in amends
        ensures amends[d] < Threshold
      {
        assert d !in g;
      }
    }
  }

  /** A field that holds a name, which does not read as a number. */
  function Name(text: string): Field {
    Field(text, None)
  }

  /** The input of the second usage example. */
  function UsageLines(): seq<seq<Field>> {
    [ [Name("Ben"), Field("45.67", Some(45.67)), Name("Ben"), Name("Reed"), Name("Sonia")],
      [Name("Reed"), Field("78", Some(78.0)), Name("Sonia"), Name("Ben")],
      [Name("Sonia"), Field("33.2", Some(33.2)), Name("Sonia"), Name("Ben"), Name("Reed")],
      [Name("Ben"), Field("19.62", Some(19.62)), Name("Sonia")] ]
  }

  /** The transactions the lines of the second usage example read as. */
  function UsageTransactions(): seq<Transaction> {
    [ Transaction("Ben", 45.67, ["Ben", "Reed", "Sonia"]),
      Transaction("Reed", 78.0, ["Sonia", "Ben"]),
      Transaction("Sonia", 33.2, ["Sonia", "Ben", "Reed"]),
      Transaction("Ben", 19.62, ["Sonia"]) ]
  }

  /** Every line of the second usage example is a well-formed transaction. */
  lemma UsageParsed(k: nat)
    requires k < |UsageLines()|
    ensures ParseLine(UsageLines()[k]) == Parsed(UsageTransactions()[k])
  {
    assert Texts(UsageLines()[k][2..]) == UsageTransactions()[k].beneficiaries;
  }

  /** Only the names of the second usage example have entries. */
  ghost predicate OnlyUsageNames(m: map<string, real>) {
    forall n :: n in m ==> n == "Ben" || n == "Reed" || n == "Sonia"
  }

  /** Exactly the names of the second usage example have entries. */
  ghost predicate UsageNames(m: map<string, real>) {
    OnlyUsageNames(m) && "Ben" in m && "Reed" in m && "Sonia" in m
  }

  /** Ben pays 45.67 for Ben, Reed and Sonia: the effect of line 1 of the second usage example. */
  lemma UsageLine1(m: map<string, real>)
    requires OnlyUsageNames(m)
    ensures UsageNames(Applied(m, UsageTransactions()[0]))
    ensures Get(Applied(m, UsageTransactions()[0]), "Ben") == Get(m, "Ben") - 45.67 + 45.67 / 3.0
    ensures Get(Applied(m, UsageTransactions()[0]), "Reed") == Get(m, "Reed") + 45.67 / 3.0
    ensures Get(Applied(m, UsageTransactions()[0]), "Sonia") == Get(m, "Sonia") + 45.67 / 3.0
  {
    var t := UsageTransactions()[0];
    EffectOnPayer(m, t, 1, 3.0);
    EffectOnOther(m, t, "Reed", 1, 3.0);
    EffectOnOther(m, t, "Sonia", 1, 3.0);
    forall n
      ensures n in Applied(m, t) <==> n in m || n == t.payer || n in t.beneficiaries
    {
      AppliedEffect(m, t, n);
    }
  }

  /** Reed pays 78 for Sonia and Ben: line 2. */
  lemma UsageLine2(m: map<string, real>)
    requires OnlyUsageNames(m)
    ensures UsageNames(Applied(m, UsageTransactions()[1]))
    ensures Get(Applied(m, UsageTransactions()[1]), "Ben") == Get(m, "Ben") + 39.0
    ensures Get(Applied(m, UsageTransactions()[1]), "Reed") == Get(m, "Reed") - 78.0
    ensures Get(Applied(m, UsageTransactions()[1]), "Sonia") == Get(m, "Sonia") + 39.0
  {
    var t := UsageTransactions()[1];
    EffectOnOther(m, t, "Ben", 1, 2.0);
    EffectOnPayer(m, t, 0, 2.0);
    EffectOnOther(m, t, "Sonia", 1, 2.0);
    forall n
      ensures n in Applied(m, t) <==> n in m || n == t.payer || n in t.beneficiaries
    {
      AppliedEffect(m, t, n);
    }
  }

  /** Sonia pays 33.2 for Sonia, Ben and Reed: line 3. */
  lemma UsageLine3(m: map<string, real>)
    requires OnlyUsageNames(m)
    ensures UsageNames(Applied(m, UsageTransactions()[2]))
    ensures Get(Applied(m, UsageTransactions()[2]), "Ben") == Get(m, "Ben") + 33.2 / 3.0
    ensures Get(Applied(m, UsageTransactions()[2]), "Reed") == Get(m, "Reed") + 33.2 / 3.0
    ensures Get(Applied(m, UsageTransactions()[2]), "Sonia") == Get(m, "Sonia") - 33.2 + 33.2 / 3.0
  {
    var t := UsageTransactions()[2];
    EffectOnOther(m, t, "Ben", 1, 3.0);
    EffectOnOther(m, t, "Reed", 1, 3.0);
    EffectOnPayer(m, t, 1, 3.0);
    forall n
      ensures n in Applied(m, t) <==> n in m || n == t.payer || n in t.beneficiaries
    {
      AppliedEffect(m, t, n);
    }
  }

  /** Ben pays 19.62 for Sonia: line 4. */
  lemma UsageLine4(m: map<string, real>)
    requires UsageNames(m)
    ensures UsageNames(Applied(m, UsageTransactions()[3]))
    ensures Get(Applied(m, UsageTransactions()[3]), "Ben") == Get(m, "Ben") - 19.62
    ensures Get(Applied(m, UsageTransactions()[3]), "Reed") == Get(m, "Reed")
    ensures Get(Applied(m, UsageTransactions()[3]), "Sonia") == Get(m, "Sonia") + 19.62
  {
    var t := UsageTransactions()[3];
    EffectOnPayer(m, t, 0, 1.0);
    EffectOnOther(m, t, "Reed", 0, 1.0);
    EffectOnOther(m, t, "Sonia", 1, 1.0);
    forall n
      ensures n in Applied(m, t) <==> n in m || n == t.payer || n in t.beneficiaries
    {
      AppliedEffect(m, t, n);
    }
  }

  /**
   * The effect of a transaction on its payer when the payer is listed
   * `count` times, once the number `k` of listed names is known.
   */
  lemma EffectOnPayer(m: map<string, real>, t: Transaction, count: nat, k: real)
    requires |t.beneficiaries| as real == k > 0.0
    requires multiset(t.beneficiaries)[t.payer] == count
    ensures Get(Applied(m, t), t.payer) == Get(m, t.payer) - t.amount + Shares(count, t.amount / k)
  {
    AppliedEffect(m, t, t.payer);
  }

  /** The same for a name other than the payer. */
  lemma EffectOnOther(m: map<string, real>, t: Transaction, n: string, count: nat, k: real)
    requires |t.beneficiaries| as real == k > 0.0
    requires n != t.payer && multiset(t.beneficiaries)[n] == count
    ensures Get(Applied(m, t), n) == Get(m, n) + Shares(count, t.amount / k)
  {
    AppliedEffect(m, t, n);
  }

  /** Reading a line of the second usage example applies its transaction, whatever came before. */
  lemma UsageStep(m: map<string, real>, k: nat)
    requires k < |UsageLines()|
    ensures Step(m, UsageLines()[k]) == Applied(m, UsageTransactions()[k])
  {
    UsageParsed(k);
  }

  /** Four lines are read in order. */
  lemma AmendsFour(a: seq<Field>, b: seq<Field>, c: seq<Field>, d: seq<Field>)
    ensures Amends([a, b, c, d]) == Step(Step(Step(Step(map[], a), b), c), d)
  {
    var s1, s2, s3 := [a], [a, b], [a, b, c];
    AmendsSnoc([], a);
    AmendsSnoc(s1, b);
    AmendsSnoc(s2, c);
    AmendsSnoc(s3, d);
    assert [] + [a] == s1 && s1 + [b] == s2 && s2 + [c] == s3 && s3 + [d] == [a, b, c, d];
  }

  /** A map with exactly the three names of the example is fixed by their balances. */
  lemma ThreeEntries(m: map<string, real>, b: real, r: real, s: real)
    requires UsageNames(m)
    requires Get(m, "Ben") == b && Get(m, "Reed") == r && Get(m, "Sonia") == s
    ensures m == map["Ben" := b, "Reed" := r, "Sonia" := s]
  {
  }

  // The usage lemmas below pass literal maps and lines as parameters constrained
  // by `requires`, and split the example into halves, to keep each proof cheap.

  /** The lines of the second usage example read one after another from `m0`. */
  lemma UsageChain(m0: map<string, real>, lines: seq<seq<Field>>)
    requires m0 == map[] && lines == UsageLines()
    ensures Amends(lines) == map["Ben" := 0.0, "Reed" := -51.71, "Sonia" := 51.71]
  {
    AmendsFour(lines[0], lines[1], lines[2], lines[3]);
    assert lines == [lines[0], lines[1], lines[2], lines[3]];
    UsageSteps(m0, lines);
  }

  /** The four steps of the example one after another. */
  lemma UsageSteps(m0: map<string, real>, lines: seq<seq<Field>>)
    requires m0 == map[] && lines == UsageLines()
    ensures Step(Step(Step(Step(m0, lines[0]), lines[1]), lines[2]), lines[3])
         == map["Ben" := 0.0, "Reed" := -51.71, "Sonia" := 51.71]
  {
    UsageFirstHalf(m0, lines);
    UsageSecondHalf(Step(Step(m0, lines[0]), lines[1]), lines);
  }

  /** Lines 1 and 2 of the example from no entries. */
  lemma UsageFirstHalf(m0: map<string, real>, lines: seq<seq<Field>>)
    requires m0 == map[] && lines == UsageLines()
    ensures var m2 := Step(Step(m0, lines[0]), lines[1]);
      && UsageNames(m2)
      && Get(m2, "Ben") == -45.67 + 45.67 / 3.0 + 39.0
      && Get(m2, "Reed") == 45.67 / 3.0 - 78.0
      && Get(m2, "Sonia") == 45.67 / 3.0 + 39.0
  {
    assert lines == [lines[0], lines[1], lines[2], lines[3]];
    var m1 := Step(m0, lines[0]);
    UsageStep(m0, 0);
    UsageLine1(m0);
    UsageStep(m1, 1);
    UsageLine2(m1);
  }

  /** Lines 3 and 4 of the example after the first two. */
  lemma UsageSecondHalf(m2: map<string, real>, lines: seq<seq<Field>>)
    requires lines == UsageLines() && UsageNames(m2)
    requires Get(m2, "Ben") == -45.67 + 45.67 / 3.0 + 39.0
    requires Get(m2, "Reed") == 45.67 / 3.0 - 78.0
    requires Get(m2, "Sonia") == 45.67 / 3.0 + 39.0
    ensures Step(Step(m2, lines[2]), lines[3]) == map["Ben" := 0.0, "Reed" := -51.71, "Sonia" := 51.71]
  {
    assert lines == [lines[0], lines[1], lines[2], lines[3]];
    var m3 := Step(m2, lines[2]);
    UsageStep(m2, 2);
    UsageLine3(m2);
    var m4 := Step(m3, lines[3]);
    UsageStep(m3, 3);
    UsageLine4(m3);
    ThreeEntries(m4, 0.0, -51.71, 51.71);
  }

  /** In exact arithmetic Ben nets to zero, Reed is owed 51.71 and Sonia owes 51.71. */
  lemma UsageBalances()
    ensures Amends(UsageLines()) == map["Ben" := 0.0, "Reed" := -51.71, "Sonia" := 51.71]
  {
    UsageChain(map[], UsageLines());
  }

  /** The usage example's balances leave one plan: Sonia pays Reed 51.71. */
  lemma UsagePlan(amends: map<string, real>, g: Graph)
    requires amends == map["Ben" := 0.0, "Reed" := -51.71, "Sonia" := 51.71]
    requires Payments(amends, g)
    ensures g == map["Sonia" := map["Reed" := 51.71]]
  {
    assert "Sonia" in g;
    forall d | d in g
      ensures d == "Sonia"
    {
      assert d in amends && amends[d] >= Threshold;
    }
    assert g.Keys == {"Sonia"};
    var row := g["Sonia"];
    forall c | c in row
      ensures c == "Reed"
    {
      assert Edge(g, "Sonia", c);
    }
    assert row.Keys == {"Reed"};
    var a := row["Reed"];
    assert row == map["Reed" := a];
    TotalSingleton("Reed", a);
    assert Paid(g, "Sonia") == a;
    assert Column(g, "Reed") == map["Sonia" := a];
    TotalSingleton("Sonia", a);
    assert Received(g, "Reed") == a;
    assert Edge(g, "Sonia", "Reed");
    assert a == 51.71;
  }

  /**
   * The second usage example end to end: in exact arithmetic, and whatever
   * order the names come out of the map in, the graph holds one payment,
   * Sonia paying Reed 51.71.
   */
  method UsageExample() returns (g: Graph)
    ensures g == map["Sonia" := map["Reed" := 51.71]]
  {
    g := BuildGraph(UsageLines());
    UsageBalances();
    UsagePlan(Amends(UsageLines()), g);
  }
}
