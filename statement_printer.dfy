/** StatementPrinter.statement(): the loop over an invoice's performances that prices each
    one, accumulates the amount owed and the volume credits in Java ints, and records one
    line item per performance. The rendered text is represented by its structured content. */
module StatementPrinter {
  import opened Wrappers
  import opened JavaInt
  import opened Pricing

  /** A play: its display name and its type string, as the plays map holds it. */
  datatype Play = Play(name: string, playType: string)

  /** One performance of an invoice: the key of its play and its audience size. */
  datatype Performance = Performance(playId: string, audience: int32)

  /** A customer's invoice: the performances in the order they are billed. */
  datatype Invoice = Invoice(customer: string, performances: seq<Performance>)

  /** One line of the statement: play name, charge in cents, seats. */
  datatype LineItem = LineItem(playName: string, amount: int32, audience: int32)

  /** What the statement reports: the customer of its header line, the line items in order
      and the two totals of its closing lines. */
  datatype StatementResult =
    StatementResult(customer: string, items: seq<LineItem>, totalAmount: int32, volumeCredits: int32)

  /** Why no statement is produced: the play key is missing from the map (Java dereferences
      the null that Map.get returns), or the play's type is neither "tragedy" nor "comedy"
      (the switch's default branch throws "unknown type: ..."). */
  datatype Error = MissingPlay(playId: string) | UnknownType(playType: string)

  /** Resolves a performance to the genre it is priced by, or to the error that aborts the statement. */
  function Classify(p: Performance, plays: map<string, Play>): (r: Result<Genre, Error>)
    ensures r == Err(MissingPlay(p.playId)) <==> p.playId !in plays
    ensures r.Ok? ==> p.playId in plays && plays[p.playId].playType == Label(r.value)
    ensures r.Err? && p.playId in plays ==> r == Err(UnknownType(plays[p.playId].playType))
    ensures r.Ok? <==> p.playId in plays && ParseGenre(plays[p.playId].playType).Some?
  {
    if p.playId !in plays then Err(MissingPlay(p.playId))
    else
      match ParseGenre(plays[p.playId].playType)
      case None => Err(UnknownType(plays[p.playId].playType))
      case Some(g) => ParseGenreLabel(plays[p.playId].playType, g); Ok(g)
  }

  /** Every performance of the sequence can be priced. */
  ghost predicate AllPriced(perfs: seq<Performance>, plays: map<string, Play>)
  {
    forall i :: 0 <= i < |perfs| ==> Classify(perfs[i], plays).Ok?
  }

  /** The mathematical charge of a performance that can be priced. */
  function AmountOf(p: Performance, plays: map<string, Play>): int
    requires Classify(p, plays).Ok?
  {
    AmountFor(Classify(p, plays).value, p.audience)
  }

  /** The volume credits of a performance that can be priced. */
  function CreditsOf(p: Performance, plays: map<string, Play>): int
    requires Classify(p, plays).Ok?
  {
    CreditsFor(Classify(p, plays).value, p.audience)
  }

  /** The line item of a performance that can be priced: its charge as the Java int it is computed in. */
  function ItemOf(p: Performance, plays: map<string, Play>): LineItem
    requires Classify(p, plays).Ok?
  {
    LineItem(plays[p.playId].name, Wrap(AmountOf(p, plays)), p.audience)
  }

  /** The line items of a sequence of performances that can all be priced, in order. */
  ghost function ItemsOf(perfs: seq<Performance>, plays: map<string, Play>): seq<LineItem>
    requires AllPriced(perfs, plays)
  {
    if perfs == [] then [] else ItemsOf(perfs[..|perfs| - 1], plays) + [ItemOf(perfs[|perfs| - 1], plays)]
  }

  /** The sum of the charges of a sequence of performances, with unbounded integers. */
  ghost function TotalAmount(perfs: seq<Performance>, plays: map<string, Play>): int
    requires AllPriced(perfs, plays)
  {
    if perfs == [] then 0
    else TotalAmount(perfs[..|perfs| - 1], plays) + AmountOf(perfs[|perfs| - 1], plays)
  }

  /** The sum of the volume credits of a sequence of performances, with unbounded integers. */
  ghost function TotalCredits(perfs: seq<Performance>, plays: map<string, Play>): int
    requires AllPriced(perfs, plays)
  {
    if perfs == [] then 0
    else TotalCredits(perfs[..|perfs| - 1], plays) + CreditsOf(perfs[|perfs| - 1], plays)
  }

  /** The sum of the amounts printed on a sequence of line items. */
  ghost function ItemsTotal(items: seq<LineItem>): int
  {
    if items == [] then 0 else ItemsTotal(items[..|items| - 1]) + items[|items| - 1].amount
  }

  /** The line items the loop has built after the priced performances perfs, in order, and
      the Java-int sum of their amounts. */
  ghost predicate ItemsSummarize(perfs: seq<Performance>, plays: map<string, Play>,
                                 items: seq<LineItem>, totalAmount: int32)
  {
    && AllPriced(perfs, plays)
    && items == ItemsOf(perfs, plays)
    && totalAmount == Wrap(ItemsTotal(items))
  }

  /** The Java-int totals of the charges and credits of the priced performances perfs. */
  ghost predicate TotalsSummarize(perfs: seq<Performance>, plays: map<string, Play>,
                                  totalAmount: int32, volumeCredits: int32)
  {
    && AllPriced(perfs, plays)
    && totalAmount == Wrap(TotalAmount(perfs, plays))
    && volumeCredits == Wrap(TotalCredits(perfs, plays))
  }

  /** s is the statement of the invoice: its customer, one line item per performance in
      invoice order, and totals that are the sums of the charges and credits wrapped to a
      Java int (so exact whenever the sums fit in one), the amount total also being what the
      printed line amounts add up to in Java ints. */
  ghost predicate IsStatement(s: StatementResult, invoice: Invoice, plays: map<string, Play>)
  {
    var perfs := invoice.performances;
    && s.customer == invoice.customer
    && AllPriced(perfs, plays)
    && |s.items| == |perfs|
    && (forall i :: 0 <= i < |perfs| ==> s.items[i] == ItemOf(perfs[i], plays))
    && s.totalAmount == Wrap(TotalAmount(perfs, plays))
    && s.totalAmount == Wrap(ItemsTotal(s.items))
    && s.volumeCredits == Wrap(TotalCredits(perfs, plays))
  }

  /** e is the error of the first performance of the invoice that cannot be priced. */
  ghost predicate FailsWith(invoice: Invoice, plays: map<string, Play>, e: Error)
  {
    var perfs := invoice.performances;
    exists i :: 0 <= i < |perfs| && AllPriced(perfs[..i], plays) && Classify(perfs[i], plays) == Err(e)
  }

  /** The statement for an invoice: the statement of IsStatement when every performance can
      be priced, and otherwise the error of the first one that cannot, with nothing else. */
  method Statement(invoice: Invoice, plays: map<string, Play>) returns (r: Result<StatementResult, Error>)
    ensures r.Ok? <==> AllPriced(invoice.performances, plays)
    ensures r.Ok? ==> IsStatement(r.value, invoice, plays)
    ensures r.Err? ==> FailsWith(invoice, plays, r.error)
  {
    var perfs := invoice.performances;
    var totalAmount: int32 := 0;
    var volumeCredits: int32 := 0;
    var items: seq<LineItem> := [];
    WrapInRange(0);
    for i := 0 to |perfs|
      invariant ItemsSummarize(perfs[..i], plays, items, totalAmount)
      invariant TotalsSummarize(perfs[..i], plays, totalAmount, volumeCredits)
    {
      var p := perfs[i];
      if p.playId !in plays {
        FailAt(invoice, plays, i);
        return Err(MissingPlay(p.playId));
      }
      var play := plays[p.playId];

      var thisAmount: int32 := 0;
      var genre := ParseGenre(play.playType);
      match genre {
        case Some(Tragedy) =>
          thisAmount := TragedyAmount(p.audience);
        case Some(Comedy) =>
          thisAmount := ComedyAmount(p.audience);
        case None =>
          FailAt(invoice, plays, i);
          return Err(UnknownType(play.playType));
      }
      var g := genre.value;
      var newCredits := AddCredits(volumeCredits, g, p.audience);

      PricedAs(p, plays, g);
      ItemsAccumulate(perfs, plays, i, items, totalAmount, thisAmount);
      TotalsAccumulate(perfs, plays, i, totalAmount, thisAmount, volumeCredits, newCredits);
      volumeCredits := newCredits;
      items := items + [LineItem(play.name, thisAmount, p.audience)];
      totalAmount := Wrap(totalAmount + thisAmount);
    }
    Complete(invoice, plays, items, totalAmount, volumeCredits);
    r := Ok(StatementResult(invoice.customer, items, totalAmount, volumeCredits));
  }

  /** The tragedy case of the switch, evaluated operator by operator in Java ints: the
      charge of a tragedy, wrapped. */
  method TragedyAmount(audience: int32) returns (thisAmount: int32)
    ensures thisAmount == Wrap(AmountFor(Tragedy, audience))
  {
    thisAmount := TRAGEDY_BASE_AMOUNT;
    WrapInRange(thisAmount);
    if audience > TRAGEDY_AUDIENCE_THRESHOLD {
      var seats := Wrap(audience - TRAGEDY_AUDIENCE_THRESHOLD);
      WrapInRange(audience - TRAGEDY_AUDIENCE_THRESHOLD);
      ghost var exact := TRAGEDY_BASE_AMOUNT + TRAGEDY_OVER_BASE_CAPACITY_PER_PERSON * seats;
      JavaAccumulate(thisAmount, TRAGEDY_BASE_AMOUNT, TRAGEDY_OVER_BASE_CAPACITY_PER_PERSON * seats);
      thisAmount := Wrap(thisAmount + Wrap(TRAGEDY_OVER_BASE_CAPACITY_PER_PERSON * seats));
      assert AmountFor(Tragedy, audience) == exact;
    }
  }

  /** The comedy case of the switch, evaluated operator by operator in Java ints: the
      charge of a comedy, wrapped. */
  method ComedyAmount(audience: int32) returns (thisAmount: int32)
    ensures thisAmount == Wrap(AmountFor(Comedy, audience))
  {
    thisAmount := COMEDY_BASE_AMOUNT;
    WrapInRange(thisAmount);
    ghost var exact: int := COMEDY_BASE_AMOUNT;
    if audience > COMEDY_AUDIENCE_THRESHOLD {
      var seats := Wrap(audience - COMEDY_AUDIENCE_THRESHOLD);
      var surcharge := Wrap(COMEDY_OVER_BASE_CAPACITY_AMOUNT + Wrap(COMEDY_OVER_BASE_CAPACITY_PER_PERSON * seats));
      ghost var over := ComedySurchargeInJava(audience, seats, surcharge);
      JavaAccumulate(thisAmount, exact, over);
      thisAmount := Wrap(thisAmount + surcharge);
      exact := exact + over;
    }
    JavaAccumulate(thisAmount, exact, COMEDY_AMOUNT_PER_AUDIENCE * audience);
    thisAmount := Wrap(thisAmount + Wrap(COMEDY_AMOUNT_PER_AUDIENCE * audience));
    exact := exact + COMEDY_AMOUNT_PER_AUDIENCE * audience;
    assert exact == AmountFor(Comedy, audience);
  }

  /** The comedy surcharge past the threshold, evaluated in Java ints, is the exact
      surcharge over wrapped. */
  lemma ComedySurchargeInJava(audience: int32, seats: int32, surcharge: int32) returns (over: int)
    requires audience > COMEDY_AUDIENCE_THRESHOLD
    requires seats == Wrap(audience - COMEDY_AUDIENCE_THRESHOLD)
    requires surcharge == Wrap(COMEDY_OVER_BASE_CAPACITY_AMOUNT + Wrap(COMEDY_OVER_BASE_CAPACITY_PER_PERSON * seats))
    ensures over == COMEDY_OVER_BASE_CAPACITY_AMOUNT
                    + COMEDY_OVER_BASE_CAPACITY_PER_PERSON * (audience - COMEDY_AUDIENCE_THRESHOLD)
    ensures surcharge == Wrap(over)
  {
    WrapInRange(audience - COMEDY_AUDIENCE_THRESHOLD);
    WrapAdd(COMEDY_OVER_BASE_CAPACITY_AMOUNT, COMEDY_OVER_BASE_CAPACITY_PER_PERSON * seats);
    over := COMEDY_OVER_BASE_CAPACITY_AMOUNT + COMEDY_OVER_BASE_CAPACITY_PER_PERSON * seats;
  }

  /** The credit updates of one performance, in Java ints: the running total plus the
      performance's credits, wrapped. */
  method AddCredits(volumeCredits: int32, g: Genre, audience: int32) returns (r: int32)
    ensures r == Wrap(volumeCredits + CreditsFor(g, audience))
  {
    var base := Max(Wrap(audience - BASE_VOLUME_CREDIT_THRESHOLD), 0);
    r := Wrap(volumeCredits + base);
    if g == Comedy {
      JavaAccumulate(r, volumeCredits + base, Div(audience, COMEDY_EXTRA_VOLUME_FACTOR));
      r := Wrap(r + Div(audience, COMEDY_EXTRA_VOLUME_FACTOR));
    }
  }

  /** One turn of the statement's loop, for the line items: once the performance at index i
      has been priced, appending its line item and adding its amount in Java ints
      summarize the prefix one longer. */
  lemma ItemsAccumulate(perfs: seq<Performance>, plays: map<string, Play>, i: nat,
                        items: seq<LineItem>, amount: int32, thisAmount: int32)
    requires i < |perfs| && Classify(perfs[i], plays).Ok?
    requires ItemsSummarize(perfs[..i], plays, items, amount)
    requires thisAmount == Wrap(AmountOf(perfs[i], plays))
    ensures ItemsSummarize(perfs[..i + 1], plays,
                           items + [LineItem(plays[perfs[i].playId].name, thisAmount, perfs[i].audience)],
                           Wrap(amount + thisAmount))
  {
    ItemsStep(perfs, plays, i, items, thisAmount);
    ItemsTotalStep(items, LineItem(plays[perfs[i].playId].name, thisAmount, perfs[i].audience), amount);
  }

  /** One turn of the statement's loop, for the totals: once the performance at index i has
      been priced, the Java-int updates of the two totals summarize the prefix
      one longer. */
  lemma TotalsAccumulate(perfs: seq<Performance>, plays: map<string, Play>, i: nat,
                         amount: int32, thisAmount: int32, credits: int32, newCredits: int32)
    requires i < |perfs| && Classify(perfs[i], plays).Ok?
    requires TotalsSummarize(perfs[..i], plays, amount, credits)
    requires thisAmount == Wrap(AmountOf(perfs[i], plays))
    requires newCredits == Wrap(credits + CreditsOf(perfs[i], plays))
    ensures TotalsSummarize(perfs[..i + 1], plays, Wrap(amount + thisAmount), newCredits)
  {
    PrefixStep(perfs, plays, i);
    AmountStep(perfs, plays, i, amount, thisAmount);
    CreditsStep(perfs, plays, i, credits, newCredits);
  }

  /** A performance classified with genre g is charged and credited as g prescribes. */
  lemma PricedAs(p: Performance, plays: map<string, Play>, g: Genre)
    requires Classify(p, plays) == Ok(g)
    ensures AmountOf(p, plays) == AmountFor(g, p.audience)
    ensures CreditsOf(p, plays) == CreditsFor(g, p.audience)
  {
  }

  /** The line items after one more priced performance are those of the longer prefix. */
  lemma ItemsStep(perfs: seq<Performance>, plays: map<string, Play>, i: nat,
                  items: seq<LineItem>, thisAmount: int32)
    requires i < |perfs| && Classify(perfs[i], plays).Ok?
    requires AllPriced(perfs[..i], plays) && items == ItemsOf(perfs[..i], plays)
    requires thisAmount == Wrap(AmountOf(perfs[i], plays))
    ensures AllPriced(perfs[..i + 1], plays)
    ensures items + [LineItem(plays[perfs[i].playId].name, thisAmount, perfs[i].audience)]
         == ItemsOf(perfs[..i + 1], plays)
  {
    PrefixStep(perfs, plays, i);
  }

  /** The Java-int amount total after one more priced performance is that of the longer prefix. */
  lemma AmountStep(perfs: seq<Performance>, plays: map<string, Play>, i: nat, amount: int32, thisAmount: int32)
    requires i < |perfs| && AllPriced(perfs[..i], plays) && Classify(perfs[i], plays).Ok?
    requires amount == Wrap(TotalAmount(perfs[..i], plays))
    requires thisAmount == Wrap(AmountOf(perfs[i], plays))
    ensures Wrap(amount + thisAmount) == Wrap(TotalAmount(perfs[..i + 1], plays))
  {
    PrefixStep(perfs, plays, i);
    JavaAccumulate(amount, TotalAmount(perfs[..i], plays), AmountOf(perfs[i], plays));
  }

  /** The Java-int credit total after one more priced performance is that of the longer prefix. */
  lemma CreditsStep(perfs: seq<Performance>, plays: map<string, Play>, i: nat, credits: int32, newCredits: int32)
    requires i < |perfs| && AllPriced(perfs[..i], plays) && Classify(perfs[i], plays).Ok?
    requires credits == Wrap(TotalCredits(perfs[..i], plays))
    requires newCredits == Wrap(credits + CreditsOf(perfs[i], plays))
    ensures newCredits == Wrap(TotalCredits(perfs[..i + 1], plays))
  {
    PrefixStep(perfs, plays, i);
    JavaAccumulate(credits, TotalCredits(perfs[..i], plays), CreditsOf(perfs[i], plays));
  }

  /** A performance that cannot be priced, after a priced prefix, makes the invoice fail
      with its error. */
  lemma FailAt(invoice: Invoice, plays: map<string, Play>, i: nat)
    requires i < |invoice.performances|
    requires AllPriced(invoice.performances[..i], plays)
    requires Classify(invoice.performances[i], plays).Err?
    ensures FailsWith(invoice, plays, Classify(invoice.performances[i], plays).error)
    ensures !AllPriced(invoice.performances, plays)
  {
  }

  /** Once the loop has summarized every performance, its result is the statement. */
  lemma Complete(invoice: Invoice, plays: map<string, Play>, items: seq<LineItem>, totalAmount: int32, volumeCredits: int32)
    requires ItemsSummarize(invoice.performances[..|invoice.performances|], plays, items, totalAmount)
    requires TotalsSummarize(invoice.performances[..|invoice.performances|], plays, totalAmount, volumeCredits)
    ensures IsStatement(StatementResult(invoice.customer, items, totalAmount, volumeCredits), invoice, plays)
  {
    assert invoice.performances[..|invoice.performances|] == invoice.performances;
    ItemsOfAt(invoice.performances, plays);
  }

  /** Extending a priced prefix by one priced performance adds that performance's charge and credits. */
  lemma PrefixStep(perfs: seq<Performance>, plays: map<string, Play>, i: nat)
    requires i < |perfs|
    requires AllPriced(perfs[..i], plays) && Classify(perfs[i], plays).Ok?
    ensures AllPriced(perfs[..i + 1], plays)
    ensures TotalAmount(perfs[..i + 1], plays) == TotalAmount(perfs[..i], plays) + AmountOf(perfs[i], plays)
    ensures TotalCredits(perfs[..i + 1], plays) == TotalCredits(perfs[..i], plays) + CreditsOf(perfs[i], plays)
    ensures ItemsOf(perfs[..i + 1], plays) == ItemsOf(perfs[..i], plays) + [ItemOf(perfs[i], plays)]
  {
    assert perfs[..i + 1][..i] == perfs[..i];
  }

  /** Every prefix of a priced sequence is priced. */
  lemma AllPricedPrefix(perfs: seq<Performance>, plays: map<string, Play>, n: nat)
    requires AllPriced(perfs, plays) && n <= |perfs|
    ensures AllPriced(perfs[..n], plays)
  {
    assert forall k :: 0 <= k < n ==> perfs[..n][k] == perfs[k];
  }

  /** The line items of a priced sequence are its performances' items, one each, in order. */
  lemma {:induction false} ItemsOfAt(perfs: seq<Performance>, plays: map<string, Play>)
    requires AllPriced(perfs, plays)
    ensures |ItemsOf(perfs, plays)| == |perfs|
    ensures forall k :: 0 <= k < |perfs| ==> ItemsOf(perfs, plays)[k] == ItemOf(perfs[k], plays)
  {
    if perfs != [] {
      var n := |perfs| - 1;
      AllPricedPrefix(perfs, plays, n);
      ItemsOfAt(perfs[..n], plays);
      var before := ItemsOf(perfs[..n], plays);
      assert ItemsOf(perfs, plays) == before + [ItemOf(perfs[n], plays)];
      forall k | 0 <= k < |perfs|
        ensures ItemsOf(perfs, plays)[k] == ItemOf(perfs[k], plays)
      {
        if k < n {
          assert perfs[..n][k] == perfs[k];
        }
      }
    }
  }

  /** Appending a line item to items whose Java-int sum is total and adding its amount to
      total in Java ints yields the Java-int sum of the longer sequence. */
  lemma ItemsTotalStep(items: seq<LineItem>, item: LineItem, total: int32)
    requires total == Wrap(ItemsTotal(items))
    ensures Wrap(total + item.amount) == Wrap(ItemsTotal(items + [item]))
  {
    assert (items + [item])[..|items|] == items;
    WrapAdd(ItemsTotal(items), item.amount);
  }

  /** An invoice has exactly one statement: the line items and totals are determined by the
      performances and the plays. */
  lemma IsStatementUnique(s1: StatementResult, s2: StatementResult, invoice: Invoice, plays: map<string, Play>)
    requires IsStatement(s1, invoice, plays) && IsStatement(s2, invoice, plays)
    ensures s1 == s2
  {
    assert s1.items == s2.items by {
      forall i | 0 <= i < |s1.items|
        ensures s1.items[i] == s2.items[i]
      {
        assert s1.items[i] == ItemOf(invoice.performances[i], plays);
      }
    }
  }

  /** The statement of an invoice without performances has no line items and zero totals. */
  lemma EmptyInvoiceStatement(customer: string, plays: map<string, Play>)
    ensures IsStatement(StatementResult(customer, [], 0, 0), Invoice(customer, []), plays)
  {
    WrapInRange(0);
  }

  /** An invoice fails with at most one error: that of its first unpriceable performance. */
  lemma FailsWithUnique(invoice: Invoice, plays: map<string, Play>, e1: Error, e2: Error)
    requires FailsWith(invoice, plays, e1) && FailsWith(invoice, plays, e2)
    ensures e1 == e2
  {
    var perfs := invoice.performances;
    var i :| 0 <= i < |perfs| && AllPriced(perfs[..i], plays) && Classify(perfs[i], plays) == Err(e1);
    var j :| 0 <= j < |perfs| && AllPriced(perfs[..j], plays) && Classify(perfs[j], plays) == Err(e2);
    if i < j {
      PricedBefore(perfs, plays, j, i);
    } else if j < i {
      PricedBefore(perfs, plays, i, j);
    }
  }

  /** Each performance of a priced prefix can be priced. */
  lemma PricedBefore(perfs: seq<Performance>, plays: map<string, Play>, n: nat, k: nat)
    requires k < n <= |perfs| && AllPriced(perfs[..n], plays)
    ensures Classify(perfs[k], plays).Ok?
  {
    assert perfs[..n][k] == perfs[k];
  }

  /** An invoice with a performance that cannot be priced fails with some error. */
  lemma UnpricedFails(invoice: Invoice, plays: map<string, Play>)
    requires !AllPriced(invoice.performances, plays)
    ensures exists e :: FailsWith(invoice, plays, e)
  {
    var perfs := invoice.performances;
    assert perfs[..|perfs|] == perfs;
    var i := FirstUnpriced(perfs, plays, |perfs|);
    assert FailsWith(invoice, plays, Classify(perfs[i], plays).error);
  }

  /** A prefix one longer is priced exactly when the shorter one and the next performance are. */
  lemma PricedExtend(perfs: seq<Performance>, plays: map<string, Play>, n: nat)
    requires n < |perfs|
    ensures AllPriced(perfs[..n + 1], plays) <==> AllPriced(perfs[..n], plays) && Classify(perfs[n], plays).Ok?
  {
    assert forall k :: 0 <= k < n ==> perfs[..n + 1][k] == perfs[..n][k];
    assert perfs[..n + 1][n] == perfs[n];
  }

  /** The first performance below n that cannot be priced, when there is one. */
  lemma {:induction false} FirstUnpriced(perfs: seq<Performance>, plays: map<string, Play>, n: nat) returns (i: nat)
    requires n <= |perfs| && !AllPriced(perfs[..n], plays)
    ensures i < n && AllPriced(perfs[..i], plays) && Classify(perfs[i], plays).Err?
  {
    assert perfs[..0] == [];
    PricedExtend(perfs, plays, n - 1);
    if AllPriced(perfs[..n - 1], plays) {
      i := n - 1;
    } else {
      i := FirstUnpriced(perfs, plays, n - 1);
    }
  }

  /** Billing two runs of performances on one invoice charges the sum of billing each. */
  lemma {:induction false} TotalsAppend(s: seq<Performance>, t: seq<Performance>, plays: map<string, Play>)
    requires AllPriced(s, plays) && AllPriced(t, plays)
    ensures AllPriced(s + t, plays)
    ensures TotalAmount(s + t, plays) == TotalAmount(s, plays) + TotalAmount(t, plays)
    ensures TotalCredits(s + t, plays) == TotalCredits(s, plays) + TotalCredits(t, plays)
  {
    assert AllPriced(s + t, plays) by {
      forall k | 0 <= k < |s + t|
        ensures Classify((s + t)[k], plays).Ok?
      {
        if k >= |s| {
          assert (s + t)[k] == t[k - |s|];
        }
      }
    }
    if t != [] {
      var n := |t| - 1;
      AllPricedPrefix(t, plays, n);
      TotalsAppend(s, t[..n], plays);
      assert (s + t)[..|s + t| - 1] == s + t[..n];
      assert (s + t)[|s + t| - 1] == t[n];
    } else {
      assert s + t == s;
    }
  }

  /** Every audience of the sequence is non-negative. */
  ghost predicate NonNegativeAudiences(perfs: seq<Performance>)
  {
    forall i :: 0 <= i < |perfs| ==> perfs[i].audience >= 0
  }

  /** With non-negative audiences the exact totals are non-negative. */
  lemma {:induction false} TotalsNonNegative(perfs: seq<Performance>, plays: map<string, Play>)
    requires AllPriced(perfs, plays) && NonNegativeAudiences(perfs)
    ensures TotalAmount(perfs, plays) >= 0 && TotalCredits(perfs, plays) >= 0
  {
    if perfs != [] {
      var n := |perfs| - 1;
      AllPricedPrefix(perfs, plays, n);
      assert NonNegativeAudiences(perfs[..n]) by {
        assert forall k :: 0 <= k < n ==> perfs[..n][k] == perfs[k];
      }
      TotalsNonNegative(perfs[..n], plays);
      AmountNonNegative(Classify(perfs[n], plays).value, perfs[n].audience);
    }
  }

  /** When the audiences are non-negative and the exact totals fit in a Java int, the
      statement's totals are exact: nothing wraps around. */
  lemma ExactTotals(s: StatementResult, invoice: Invoice, plays: map<string, Play>)
    requires IsStatement(s, invoice, plays) && NonNegativeAudiences(invoice.performances)
    requires TotalAmount(invoice.performances, plays) <= MAX
    requires TotalCredits(invoice.performances, plays) <= MAX
    ensures s.totalAmount == TotalAmount(invoice.performances, plays)
    ensures s.volumeCredits == TotalCredits(invoice.performances, plays)
  {
    TotalsNonNegative(invoice.performances, plays);
    WrapInRange(TotalAmount(invoice.performances, plays));
    WrapInRange(TotalCredits(invoice.performances, plays));
  }
}
