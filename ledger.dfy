/**
 * The ledger accumulator of fairsplit: input lines become transactions, and
 * each transaction moves money in the `amends` map from name to balance
 * (positive: owes money, negative: is owed money).
 *
 * Policy: exclusive split. The payer is debited the whole amount and every
 * listed beneficiary is credited `amount / len(beneficiaries)`; a payer who
 * lists themself is debited and credited.
 */
module Ledger {
  import opened Balances

  datatype Option<T> = None | Some(value: T)

  /**
   * One whitespace-separated field of an input line. `number` is what
   * parsing `text` as a 64-bit float yields, when it parses.
   */
  datatype Field = Field(text: string, number: Option<real>)

  /** `payer` spent `amount` on behalf of `beneficiaries`. */
  datatype Transaction = Transaction(payer: string, amount: real, beneficiaries: seq<string>)

  /** What the read loop makes of one line. */
  datatype LineOutcome =
    | Blank                      // no fields: skipped silently
    | InvalidFormat              // one or two fields: "invalid format, ignoring line"
    | BadNumber(text: string)    // the sum does not parse: "cannot read number"
    | Parsed(tx: Transaction)

  /** The texts of a list of fields. */
  function Texts(fields: seq<Field>): (r: seq<string>)
    ensures |r| == |fields|
    ensures forall k :: 0 <= k < |fields| ==> r[k] == fields[k].text
  {
    if fields == [] then [] else [fields[0].text] + Texts(fields[1..])
  }

  /**
   * A line needs a person, a sum and at least one person after the sum;
   * a line with too few fields or an unreadable sum is rejected.
   */
  function ParseLine(fields: seq<Field>): (r: LineOutcome)
    ensures r == Blank <==> |fields| == 0
    ensures r == InvalidFormat <==> 0 < |fields| < 3
    ensures r.BadNumber? <==> |fields| >= 3 && fields[1].number.None?
    ensures r.Parsed? <==> |fields| >= 3 && fields[1].number.Some?
    ensures r.Parsed? ==>
              && r.tx.payer == fields[0].text
              && r.tx.amount == fields[1].number.value
              && |r.tx.beneficiaries| == |fields| - 2 >= 1
              && forall k :: 0 <= k < |r.tx.beneficiaries| ==> r.tx.beneficiaries[k] == fields[k + 2].text
  {
    if |fields| < 3 then
      if |fields| > 0 then InvalidFormat else Blank
    else
      match fields[1].number
      case None => BadNumber(fields[1].text)
      case Some(amount) => Parsed(Transaction(fields[0].text, amount, Texts(fields[2..])))
  }

  /**
   * Reference definition of a transaction's effect: `payer` loses `amount`,
   * every name gains `part` once for each time it is listed in `bens`, and
   * nobody else changes. Names touched for the first time start from 0.
   */
  function Credited(m: map<string, real>, payer: string, amount: real, bens: seq<string>, part: real): map<string, real>
  {
    map n | n in m.Keys + {payer} + (set b | b in bens) ::
      Get(m, n) - (if n == payer then amount else 0.0) + Shares(multiset(bens)[n], part)
  }

  /** `count` shares of size `part`, added up one at a time. */
  function Shares(count: nat, part: real): real
  {
    if count == 0 then 0.0 else Shares(count - 1, part) + part
  }

  /** `count` shares make `count * part`; in particular `n` shares of `amount / n` make `amount`. */
  lemma {:induction false} SharesSplit(count: nat, amount: real)
    requires count > 0
    ensures Shares(count, amount / (count as real)) == amount
  {
    SharesProduct(count, amount / (count as real));
    var n := count as real;
    assert n * (amount / n) == amount;
  }

  lemma {:induction false} SharesProduct(count: nat, part: real)
    ensures Shares(count, part) == (count as real) * part
  {
    if count > 0 {
      SharesProduct(count - 1, part);
    }
  }

  /** The effect of one transaction under the exclusive split. */
  function Applied(m: map<string, real>, t: Transaction): map<string, real>
    requires |t.beneficiaries| > 0
  {
    Credited(m, t.payer, t.amount, t.beneficiaries, t.amount / (|t.beneficiaries| as real))
  }

  /**
   * What one transaction does to each name: the payer loses the amount,
   * every listed name gains one share per listing, and the entries of the
   * map are the old ones plus the payer and the listed names.
   */
  lemma AppliedEffect(m: map<string, real>, t: Transaction, n: string)
    requires |t.beneficiaries| > 0
    ensures n in Applied(m, t) <==> n in m || n == t.payer || n in t.beneficiaries
    ensures Get(Applied(m, t), n)
         == Get(m, n) - (if n == t.payer then t.amount else 0.0)
            + Shares(multiset(t.beneficiaries)[n], t.amount / (|t.beneficiaries| as real))
  {
  }

  /** A name that neither pays nor is listed keeps its balance. */
  lemma AppliedOthers(m: map<string, real>, t: Transaction, n: string)
    requires |t.beneficiaries| > 0 && n != t.payer && n !in t.beneficiaries
    ensures n in Applied(m, t) <==> n in m
    ensures Get(Applied(m, t), n) == Get(m, n)
  {
    AppliedEffect(m, t, n);
    assert multiset(t.beneficiaries)[n] == 0;
  }

  /** Crediting one more listed name adds one share to that name only. */
  lemma CreditedStep(m: map<string, real>, payer: string, amount: real, bens: seq<string>, o: string, part: real, longer: seq<string>)
    requires longer == bens + [o]
    ensures Credited(m, payer, amount, longer, part)
         == Credited(m, payer, amount, bens, part)[o := Get(Credited(m, payer, amount, bens, part), o) + part]
  {
    var before := Credited(m, payer, amount, bens, part);
    var after := Credited(m, payer, amount, longer, part);
    var expected := before[o := Get(before, o) + part];
    forall n
      ensures n in after <==> n in expected
      ensures n in after ==> after[n] == expected[n]
    {
      CreditedStepAt(m, payer, amount, bens, o, part, n);
    }
    assert after == expected;
  }

  /** The same, name by name. */
  lemma CreditedStepAt(m: map<string, real>, payer: string, amount: real, bens: seq<string>, o: string, part: real, n: string)
    ensures var before := Credited(m, payer, amount, bens, part);
      && (n in Credited(m, payer, amount, bens + [o], part) <==> n in before || n == o)
      && Get(Credited(m, payer, amount, bens + [o], part), n) == Get(before, n) + (if n == o then part else 0.0)
  {
    var before := Credited(m, payer, amount, bens, part);
    assert multiset(bens + [o]) == multiset(bens) + multiset{o};
    assert n in bens + [o] <==> n in bens || n == o;
    if n == o {
      assert multiset(bens + [o])[o] == multiset(bens)[o] + 1;
      assert Shares(multiset(bens)[o] + 1, part) == Shares(multiset(bens)[o], part) + part;
      if o !in before {
        assert Get(m, o) == 0.0 && o != payer && multiset(bens)[o] == 0;
      }
    } else {
      assert multiset(bens + [o])[n] == multiset(bens)[n];
    }
  }

  /** No credit is handed out yet: only the payer's debit is in place. */
  lemma CreditedNone(m: map<string, real>, payer: string, amount: real, part: real)
    ensures Credited(m, payer, amount, [], part) == m[payer := Get(m, payer) - amount]
  {
    var c := Credited(m, payer, amount, [], part);
    assert c.Keys == m.Keys + {payer};
  }

  /** Crediting one more listed name adds one share to the sum. */
  lemma CreditedStepTotal(m: map<string, real>, payer: string, amount: real, bens: seq<string>, o: string, part: real)
    ensures Total(Credited(m, payer, amount, bens + [o], part)) == Total(Credited(m, payer, amount, bens, part)) + part
  {
    var before := Credited(m, payer, amount, bens, part);
    var after := Credited(m, payer, amount, bens + [o], part);
    var v := Get(before, o) + part;
    assert after == before[o := v] by {
      CreditedStep(m, payer, amount, bens, o, part, bens + [o]);
    }
    assert Total(before[o := v]) == Total(before) - Get(before, o) + v by {
      TotalUpdate(before, o, v);
    }
  }

  /** The sum moves by the debit and by one share per listed name. */
  lemma {:induction false} CreditedTotal(m: map<string, real>, payer: string, amount: real, bens: seq<string>, part: real)
    ensures Total(Credited(m, payer, amount, bens, part)) == Total(m) - amount + Shares(|bens|, part)
    decreases |bens|
  {
    if bens == [] {
      CreditedNone(m, payer, amount, part);
      TotalUpdate(m, payer, Get(m, payer) - amount);
    } else {
      var init, o := bens[..|bens| - 1], bens[|bens| - 1];
      assert bens == init + [o];
      CreditedTotal(m, payer, amount, init, part);
      CreditedStepTotal(m, payer, amount, init, o, part);
    }
  }

  /** Conservation: one transaction redistributes money and creates none. */
  lemma AppliedConserves(m: map<string, real>, t: Transaction)
    requires |t.beneficiaries| > 0
    ensures Total(Applied(m, t)) == Total(m)
  {
    var n := |t.beneficiaries|;
    CreditedTotal(m, t.payer, t.amount, t.beneficiaries, t.amount / (n as real));
    SharesSplit(n, t.amount);
  }

  /** The listed names credited one at a time, as the read loop does. */
  function CreditEach(m: map<string, real>, bens: seq<string>, part: real): map<string, real>
    decreases |bens|
  {
    if bens == [] then m
    else
      var r := CreditEach(m, bens[..|bens| - 1], part);
      r[bens[|bens| - 1] := Get(r, bens[|bens| - 1]) + part]
  }

  /** Crediting one name at a time, after the debit, yields the reference effect. */
  lemma {:induction false} CreditEachCredited(m: map<string, real>, payer: string, amount: real, bens: seq<string>, part: real)
    ensures CreditEach(m[payer := Get(m, payer) - amount], bens, part) == Credited(m, payer, amount, bens, part)
    decreases |bens|
  {
    if bens == [] {
      CreditedNone(m, payer, amount, part);
    } else {
      CreditEachCredited(m, payer, amount, bens[..|bens| - 1], part);
      CreditEachStep(m, payer, amount, bens, part);
    }
  }

  /** The inductive step of `CreditEachCredited`: crediting the last listed name. */
  lemma CreditEachStep(m: map<string, real>, payer: string, amount: real, bens: seq<string>, part: real)
    requires bens != []
    requires var init := bens[..|bens| - 1];
      CreditEach(m[payer := Get(m, payer) - amount], init, part) == Credited(m, payer, amount, init, part)
    ensures CreditEach(m[payer := Get(m, payer) - amount], bens, part) == Credited(m, payer, amount, bens, part)
  {
    CreditedLast(m, payer, amount, bens, part);
  }

  /** `CreditedStep` for the last listed name. */
  lemma CreditedLast(m: map<string, real>, payer: string, amount: real, bens: seq<string>, part: real)
    requires bens != []
    ensures var before, o := Credited(m, payer, amount, bens[..|bens| - 1], part), bens[|bens| - 1];
      Credited(m, payer, amount, bens, part) == before[o := Get(before, o) + part]
  {
    var init, o := bens[..|bens| - 1], bens[|bens| - 1];
    assert bens == init + [o];
    CreditedStep(m, payer, amount, init, o, part, bens);
  }

  /**
   * The body of the read loop for one parsed transaction: debit the payer,
   * then credit each beneficiary in turn.
   */
  method Apply(amends: map<string, real>, t: Transaction) returns (next: map<string, real>)
    requires |t.beneficiaries| > 0
    ensures next == Applied(amends, t)
    ensures Total(next) == Total(amends)
  {
    var part := t.amount / (|t.beneficiaries| as real);
    var debited := amends[t.payer := Get(amends, t.payer) - t.amount];
    next := debited;
    for k := 0 to |t.beneficiaries|
      invariant next == CreditEach(debited, t.beneficiaries[..k], part)
    {
      assert t.beneficiaries[..k + 1][..k] == t.beneficiaries[..k];
      var o := t.beneficiaries[k];
      next := next[o := Get(next, o) + part];
    }
    assert t.beneficiaries[..|t.beneficiaries|] == t.beneficiaries;
    CreditEachCredited(amends, t.payer, t.amount, t.beneficiaries, part);
    AppliedConserves(amends, t);
  }

  /**
   * One line's effect: a parsed transaction is applied, anything else is
   * ignored. Either way the sum of all balances is kept.
   */
  function Step(amends: map<string, real>, line: seq<Field>): (r: map<string, real>)
    ensures ParseLine(line).Parsed? ==> r == Applied(amends, ParseLine(line).tx)
    ensures !ParseLine(line).Parsed? ==> r == amends
    ensures Total(r) == Total(amends)
  {
    match ParseLine(line)
    case Parsed(t) =>
      AppliedConserves(amends, t);
      Applied(amends, t)
    case _ => amends
  }

  /**
   * The balances after reading `lines` in order, starting from no entries.
   * Whatever the input, they sum to zero.
   */
  function Amends(lines: seq<seq<Field>>): (r: map<string, real>)
    ensures Total(r) == 0.0
  {
    if lines == [] then map[]
    else Step(Amends(lines[..|lines| - 1]), lines[|lines| - 1])
  }

  /** Reading one more line applies it to the balances read so far. */
  lemma AmendsSnoc(lines: seq<seq<Field>>, line: seq<Field>)
    ensures Amends(lines + [line]) == Step(Amends(lines), line)
  {
    assert (lines + [line])[..|lines|] == lines;
  }

  /** The read loop of fairsplit over an input that has been split into lines. */
  method Accumulate(lines: seq<seq<Field>>) returns (amends: map<string, real>)
    ensures amends == Amends(lines)
    ensures Total(amends) == 0.0
  {
    amends := map[];
    for n := 0 to |lines|
      invariant amends == Amends(lines[..n])
    {
      assert lines[..n + 1][..n] == lines[..n];
      match ParseLine(lines[n]) {
        case Parsed(t) =>
          amends := Apply(amends, t);
        case _ =>
      }
    }
    assert lines[..|lines|] == lines;
  }

  /**
   * The first example of the usage text: Ben pays 40.00 for Ben, Lila,
   * Carlos and Emil, so the three others owe Ben 10.00 each.
   */
  lemma BenPaysForFour()
    ensures var m := Applied(map[], Transaction("Ben", 40.0, ["Ben", "Lila", "Carlos", "Emil"]));
      && m.Keys == {"Ben", "Lila", "Carlos", "Emil"}
      && m["Ben"] == -30.0
      && m["Lila"] == 10.0 && m["Carlos"] == 10.0 && m["Emil"] == 10.0
  {
    BenPaysFor(map[], Transaction("Ben", 40.0, ["Ben", "Lila", "Carlos", "Emil"]));
  }

  /** The same example, with the input passed as constrained parameters to keep the proof cheap. */
  lemma BenPaysFor(m0: map<string, real>, t: Transaction)
    requires m0 == map[] && t == Transaction("Ben", 40.0, ["Ben", "Lila", "Carlos", "Emil"])
    ensures var m := Applied(m0, t);
      && m.Keys == {"Ben", "Lila", "Carlos", "Emil"}
      && m["Ben"] == -30.0
      && m["Lila"] == 10.0 && m["Carlos"] == 10.0 && m["Emil"] == 10.0
  {
    var bens := t.beneficiaries;
    assert t.amount / (|bens| as real) == 10.0;
    assert multiset(bens)["Ben"] == 1;
    assert multiset(bens)["Lila"] == 1;
    assert multiset(bens)["Carlos"] == 1;
    assert multiset(bens)["Emil"] == 1;
    assert Shares(1, 10.0) == 10.0;
    assert (set b | b in bens) == {"Ben", "Lila", "Carlos", "Emil"};
  }
}
