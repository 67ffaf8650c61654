# Theater statement: pricing, volume credits and invoice aggregation

This project models `StatementPrinter.statement()` of the theater billing program.
For each performance of a customer's invoice, the method looks up the play, prices
the performance by the play's type ("tragedy" or "comedy") and audience size, and
adds the performance's volume credits. It records a line item (play name, charge
in cents, seats) and accumulates the amount owed. Every step uses Java `int`
arithmetic.

The model has three modules:

- `JavaInt` (`java_int.dfy`) covers Java's 32-bit `int`.
  - `Wrap` is two's-complement wrap-around.
  - `Max` is `Math.max`.
  - `Div` is Java's truncating `/`.
  - Lemmas show that wrapping intermediate results does not change a wrapped sum.
- `Pricing` (`pricing.dfy`) holds the per-performance rules as pure functions: the switch
  on the type string (`ParseGenre`), the charge with unbounded integers
  (`AmountFor`), and the credits exactly as Java computes them (`CreditsFor`).
  Lemmas cover:
  - the base amount up to a threshold;
  - the per-seat slope above it;
  - monotonicity and non-negativity of amounts and credits.
- `StatementPrinter` (`statement_printer.dfy`) holds the data model and the loop.
  - Data: `Play`, `Performance`, `Invoice`, `LineItem`, `StatementResult`, and the two errors that abort a statement.
  - `Statement` is the imperative loop. Each switch case and the credit update is a small method that performs the Java operations one at a time and is proved to compute the exact value, wrapped.
  - The loop is proved against the `IsStatement` specification predicate.
  - Lemmas about that specification prove it determines the statement uniquely and that the error is the first failing performance's.
  - Further lemmas give the empty-invoice result, additivity of totals over concatenated runs of performances, non-negativity, and exact (non-wrapping) totals when the sums fit in an `int`.

The values in the `Constants` class are not part of this model. Each constant is an
arbitrary non-negative Java `int`, and `COMEDY_EXTRA_VOLUME_FACTOR` is positive.
Every property holds for all such values.

The switch prices only the type strings "tragedy" and "comedy". Any other type string,
such as "history" or "pastoral", throws. A comedy up to its audience threshold still
pays the flat per-audience rate on top of its base amount
(`Pricing.ComedyUpToThreshold`).

## Model

| member | source | states |
|---|---|---|
| JavaInt.Wrap | src/main/java/theater/StatementPrinter.java:43-44 | Java's `int` overflow: the value in the `int` range congruent to the exact result modulo 2^32, which Java yields for each `+`, `-` and `*` (here and at lines 50-54, 61-66 and 75); its properties are proved by WrapInRange, WrapOffset and WrapAdd |
| JavaInt.WrapInRange | src/main/java/theater/StatementPrinter.java:75 | a result that fits in an `int` does not wrap |
| JavaInt.WrapOffset | src/main/java/theater/StatementPrinter.java:43-44 | a wrapped result differs from the exact one by a multiple of 2^32 |
| JavaInt.Max | src/main/java/theater/StatementPrinter.java:61-62 | `Math.max` yields one of its arguments, and one at least as large as both |
| JavaInt.Div | src/main/java/theater/StatementPrinter.java:66 | Java's `/` on a non-negative dividend and a positive divisor is floor division and lies between 0 and the dividend; on a negative dividend it truncates toward zero |
| JavaInt.WrapAdd | src/main/java/theater/StatementPrinter.java:43-44 | wrapping either operand of a sum before adding does not change the wrapped sum, so a chain of Java `+` equals one wrap of the exact sum |
| JavaInt.JavaAccumulate | src/main/java/theater/StatementPrinter.java:75 | a Java `+=` onto an accumulator holding a wrapped exact sum holds the wrapped exact sum with the new term added |
| Pricing.ParseGenre | src/main/java/theater/StatementPrinter.java:39-58 | the switch reaches its default branch exactly when the type string is neither "tragedy" nor "comedy" |
| Pricing.ParseGenreLabel | src/main/java/theater/StatementPrinter.java:39-47 | a type string selects a genre if and only if it equals that genre's case label |
| Pricing.AmountFor | src/main/java/theater/StatementPrinter.java:39-55 | the charge that the tragedy and comedy cases compute, with unbounded integers; the threshold, slope, monotonicity and non-negativity lemmas below are about it, and TragedyAmount/ComedyAmount prove that the Java-int computation yields it wrapped |
| Pricing.CreditsFor | src/main/java/theater/StatementPrinter.java:60-67 | for a non-negative audience the credits are the seats over the credit threshold (zero if none), plus audience divided by the factor (floored) for comedy, and are never negative |
| Pricing.TragedyUpToThreshold | src/main/java/theater/StatementPrinter.java:40-46 | the exact charge of a tragedy whose audience does not exceed its threshold is its base amount |
| Pricing.TragedyOverThreshold | src/main/java/theater/StatementPrinter.java:40-46 | the exact (unbounded) charge of a tragedy with k seats past its threshold is the base amount plus k times the per-person rate |
| Pricing.ComedyUpToThreshold | src/main/java/theater/StatementPrinter.java:47-55 | the exact charge of a comedy up to its threshold is its base amount plus the flat per-audience rate per seat |
| Pricing.ComedyOverThreshold | src/main/java/theater/StatementPrinter.java:47-55 | k > 0 seats past the comedy threshold add the fixed surcharge once plus k times the per-person and flat rates to the exact charge |
| Pricing.AmountSlopeOverThreshold | src/main/java/theater/StatementPrinter.java:40-55 | above the threshold each additional seat adds the same amount to the exact charge: the per-person rate, plus the flat rate for comedy |
| Pricing.AmountNonNegative | src/main/java/theater/StatementPrinter.java:40-55 | for a non-negative audience the exact (unbounded) charge is at least its genre's base amount |
| Pricing.AmountMonotone | src/main/java/theater/StatementPrinter.java:40-55 | a larger audience never has a smaller exact (unbounded) charge, for either genre |
| Pricing.ChargeExact | src/main/java/theater/StatementPrinter.java:40-55 | for a non-negative audience whose exact charge fits in an `int`, the Java-int charge is the exact charge |
| Pricing.WrappedChargeMonotone | src/main/java/theater/StatementPrinter.java:40-55 | the Java-int charge does not fall as a non-negative audience grows, as long as the larger audience's exact charge fits in an `int` |
| Pricing.CreditsMonotone | src/main/java/theater/StatementPrinter.java:60-67 | a larger non-negative audience never earns fewer credits |
| StatementPrinter.Classify | src/main/java/theater/StatementPrinter.java:36-58 | a performance is priced exactly when its key is present and the play's type is "tragedy" or "comedy", and then its genre's label is that type; it fails with MissingPlay exactly when its key is absent, and otherwise with UnknownType carrying the type string |
| StatementPrinter.Statement | src/main/java/theater/StatementPrinter.java:26-82 | the statement succeeds if and only if every performance can be priced, and then satisfies IsStatement; otherwise it returns only the error of the first performance that cannot be priced |
| StatementPrinter.TragedyAmount | src/main/java/theater/StatementPrinter.java:40-46 | the tragedy case, in Java ints operator by operator, yields the exact tragedy charge wrapped |
| StatementPrinter.ComedyAmount | src/main/java/theater/StatementPrinter.java:47-55 | the comedy case, in Java ints operator by operator, yields the exact comedy charge wrapped |
| StatementPrinter.ComedySurchargeInJava | src/main/java/theater/StatementPrinter.java:49-53 | the over-capacity term of a comedy, in Java ints, is the exact surcharge plus per-person charge wrapped |
| StatementPrinter.AddCredits | src/main/java/theater/StatementPrinter.java:60-67 | the two credit updates add the performance's credits to the running total, wrapped |
| StatementPrinter.ItemsAccumulate | src/main/java/theater/StatementPrinter.java:69-75 | one turn of the loop turns the line items of the first i performances, and their Java-int sum, into those of the first i + 1 |
| StatementPrinter.TotalsAccumulate | src/main/java/theater/StatementPrinter.java:60-75 | one turn of the loop turns the Java-int amount and credit totals of the first i performances into those of the first i + 1 |
| StatementPrinter.ItemsStep | src/main/java/theater/StatementPrinter.java:69-73 | appending the priced performance's line item yields the line items of the longer prefix |
| StatementPrinter.ItemsTotalStep | src/main/java/theater/StatementPrinter.java:69-75 | adding a line item's amount to the Java-int sum of the earlier items gives the Java-int sum of the longer item sequence |
| StatementPrinter.AmountStep | src/main/java/theater/StatementPrinter.java:75 | `totalAmount += thisAmount` keeps the amount owed equal to the wrapped exact total of the prefix |
| StatementPrinter.CreditsStep | src/main/java/theater/StatementPrinter.java:60-67 | the credit updates keep the credits equal to the wrapped exact credit total of the prefix |
| StatementPrinter.FailAt | src/main/java/theater/StatementPrinter.java:36-57 | a performance that cannot be priced after a priced prefix makes the invoice fail with its error, and the invoice is not fully priced |
| StatementPrinter.Complete | src/main/java/theater/StatementPrinter.java:76-81 | once every performance has been summarized, the accumulated items and totals form the invoice's statement |
| StatementPrinter.PrefixStep | src/main/java/theater/StatementPrinter.java:35 | extending a priced prefix by a priced performance adds its charge, credits and line item |
| StatementPrinter.ItemsOfAt | src/main/java/theater/StatementPrinter.java:69-73 | a priced sequence has exactly one line item per performance, in order, each that performance's item |
| StatementPrinter.IsStatementUnique | src/main/java/theater/StatementPrinter.java:26-82 | an invoice has at most one statement: its items and totals are determined by the performances and plays |
| StatementPrinter.EmptyInvoiceStatement | src/main/java/theater/StatementPrinter.java:27-28 | an invoice without performances yields no line items and zero totals |
| StatementPrinter.FailsWithUnique | src/main/java/theater/StatementPrinter.java:35-57 | an invoice fails with at most one error, that of its first performance that cannot be priced |
| StatementPrinter.UnpricedFails | src/main/java/theater/StatementPrinter.java:35-57 | an invoice with any performance that cannot be priced fails with some error |
| StatementPrinter.FirstUnpriced | src/main/java/theater/StatementPrinter.java:35-57 | an unpriced prefix contains a first unpriced performance, all before it being priced |
| StatementPrinter.PricedExtend | src/main/java/theater/StatementPrinter.java:35-58 | a prefix one longer is priced if and only if the shorter prefix and the next performance are |
| StatementPrinter.TotalsAppend | src/main/java/theater/StatementPrinter.java:61-75 | the exact totals of two runs of performances billed together are the sums of their separate totals |
| StatementPrinter.TotalsNonNegative | src/main/java/theater/StatementPrinter.java:61-75 | with non-negative audiences the exact amount and credit totals are non-negative |
| StatementPrinter.ExactTotals | src/main/java/theater/StatementPrinter.java:75-80 | with non-negative audiences and exact totals that fit in an `int`, the statement's totals are exact: nothing wraps around |

## Left out

- Text rendering: the header line, one line per item with `String.format` and `System.lineSeparator()`, the closing lines, `NumberFormat` currency formatting, and the division by `PERCENT_FACTOR` as a `double` (lines 30-33, 70-73, 78-81). The model returns the structured content instead: customer, line items with amounts in cents, and the two totals.
- The constructor and the two fields of `StatementPrinter`: they are final and only hold the invoice and the plays map, so `Statement` takes both as parameters.
- The accessors `getInvoice`/`getPlays` and the unimplemented stubs after line 92: they compute nothing.
- The concrete values of the `Constants` class: that class is not part of this model, so each constant is an arbitrary value of its type.
- `null` values: a `null` play in the map, a `null` type string or name, and a `null` performance list are not modelled. A missing key, where `Map.get` returns `null`, is modelled as `MissingPlay`.
- The exception's message text "unknown type: ..." is represented by the `UnknownType` error carrying the type string.
- Type strings such as "history" or "pastoral": the switch has no case for them, so they are unknown types here.
- Pricing.AmountMonotone: states that the exact charge never falls. The Java-int charge on a line item can fall when a larger audience overflows an `int`; Pricing.WrappedChargeMonotone states monotonicity of the Java-int charge only while the charge fits.
- Pricing.AmountSlopeOverThreshold: states the per-seat slope above the threshold. It does not state strict increase, which holds only when that slope's rate is positive, and nothing about the constants makes it so.
