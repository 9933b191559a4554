/** The append-only ledger: ledger.service.ts and the entries that payments.service.ts posts. */
module Ledger {
  import opened Common

  datatype Bucket = CustomerExternal | PlatformReserved | ProviderHeld | ProviderAvailable | ProviderPaidOut

  datatype Direction = Debit | Credit

  datatype Actor = Customer | Platform | Provider

  datatype EntryKind =
    | CustomerCharge | PlatformFeeReserved | ProviderBalanceHeld | ProviderBalanceReleased
    | ProviderPayout | CustomerRefund | Reversal

  datatype Entry = Entry(job: nat, intent: nat, txn: Option<nat>, actor: Actor, kind: EntryKind,
                         amount: nat, direction: Direction, bucket: Bucket)

  /** The actor every balance query pairs with a bucket. */
  function ActorOf(k: Bucket): Actor {
    match k
    case CustomerExternal => Customer
    case PlatformReserved => Platform
    case _ => Provider
  }

  function Signed(e: Entry): int {
    if e.direction == Credit then e.amount else -(e.amount as int)
  }

  /** What can be asked of a ledger; every answer is a sum of one weight per entry. */
  datatype Query =
    | BucketNet(intent: nat, bucket: Bucket)
    | KindTotal(intent: nat, kind: EntryKind)
    | KindCount(intent: nat, kind: EntryKind)
    | Posts(txn: nat, kind: EntryKind, bucket: Bucket)
    | PostedAmount(txn: nat, kind: EntryKind, bucket: Bucket)

  function Weight(q: Query, e: Entry): int {
    match q
    case BucketNet(i, k) => if e.intent == i && e.bucket == k && e.actor == ActorOf(k) then Signed(e) else 0
    case KindTotal(i, kind) => if e.intent == i && e.kind == kind then e.amount else 0
    case KindCount(i, kind) => if e.intent == i && e.kind == kind then 1 else 0
    case Posts(t, kind, k) => if e.txn == Some(t) && e.kind == kind && e.bucket == k then 1 else 0
    case PostedAmount(t, kind, k) => if e.txn == Some(t) && e.kind == kind && e.bucket == k then e.amount else 0
  }

  /** The sum of the weights of the first `n` entries. */
  function Sum(q: Query, l: seq<Entry>, n: nat): int
    requires n <= |l|
  {
    if n == 0 then 0 else Sum(q, l, n - 1) + Weight(q, l[n - 1])
  }

  function Tally(q: Query, l: seq<Entry>): int {
    Sum(q, l, |l|)
  }

  lemma {:induction false} SumPrefix(q: Query, l: seq<Entry>, m: seq<Entry>, n: nat)
    requires n <= |l| && n <= |m| && l[..n] == m[..n]
    ensures Sum(q, l, n) == Sum(q, m, n)
  {
    if n > 0 {
      assert l[n - 1] == l[..n][n - 1] == m[..n][n - 1] == m[n - 1];
      assert l[..n - 1] == l[..n][..n - 1] == m[..n][..n - 1] == m[..n - 1];
      SumPrefix(q, l, m, n - 1);
    }
  }

  lemma TallyOne(q: Query, l: seq<Entry>, e: Entry)
    ensures Tally(q, l + [e]) == Tally(q, l) + Weight(q, e)
  {
    assert (l + [e])[..|l|] == l == l[..|l|];
    SumPrefix(q, l + [e], l, |l|);
  }

  lemma {:induction false} TallyAppend(q: Query, l: seq<Entry>, es: seq<Entry>)
    ensures Tally(q, l + es) == Tally(q, l) + Tally(q, es)
    decreases |es|
  {
    if es == [] {
      assert l + es == l;
    } else {
      var front, last := es[..|es| - 1], es[|es| - 1];
      TallyAppend(q, l, front);
      TallyOne(q, l + front, last);
      TallyOne(q, front, last);
      assert l + es == (l + front) + [last] && es == front + [last];
    }
  }

  /** Entries that carry no weight in a query leave its answer alone. */
  lemma {:induction false} SumZero(q: Query, es: seq<Entry>, n: nat)
    requires n <= |es| && forall k :: 0 <= k < n ==> Weight(q, es[k]) == 0
    ensures Sum(q, es, n) == 0
  {
    if n > 0 {
      SumZero(q, es, n - 1);
    }
  }

  lemma {:induction false} SumNonNegative(q: Query, l: seq<Entry>, n: nat)
    requires !q.BucketNet? && n <= |l|
    ensures Sum(q, l, n) >= 0
  {
    if n > 0 {
      SumNonNegative(q, l, n - 1);
    }
  }

  /** A positive answer has an entry behind it. */
  lemma {:induction false} SumPositive(q: Query, l: seq<Entry>, n: nat) returns (k: nat)
    requires n <= |l| && Sum(q, l, n) > 0
    ensures k < n && Weight(q, l[k]) > 0
  {
    k := n - 1;
    if Weight(q, l[k]) <= 0 {
      k := SumPositive(q, l, n - 1);
    }
  }

  /** Two entries that weigh in a query of non-negative weights count at least twice. */
  lemma {:induction false} SumTwo(q: Query, l: seq<Entry>, n: nat, j: nat, k: nat)
    requires !q.BucketNet? && j < k < n <= |l| && Weight(q, l[j]) >= 1 && Weight(q, l[k]) >= 1
    ensures Sum(q, l, n) >= 2
  {
    if n - 1 > k {
      SumTwo(q, l, n - 1, j, k);
    } else {
      SumOne(q, l, n - 1, j);
    }
  }

  lemma {:induction false} SumOne(q: Query, l: seq<Entry>, n: nat, j: nat)
    requires !q.BucketNet? && j < n <= |l| && Weight(q, l[j]) >= 1
    ensures Sum(q, l, n) >= 1
  {
    SumNonNegative(q, l, n - 1);
    if n - 1 > j {
      SumOne(q, l, n - 1, j);
    }
  }

  lemma {:induction false} NoneOfNothing(t: nat, kind: EntryKind, bucket: Bucket, l: seq<Entry>, n: nat)
    requires n <= |l| && Sum(Posts(t, kind, bucket), l, n) == 0
    ensures Sum(PostedAmount(t, kind, bucket), l, n) == 0
  {
    if n > 0 {
      SumNonNegative(Posts(t, kind, bucket), l, n - 1);
      NoneOfNothing(t, kind, bucket, l, n - 1);
    }
  }

  /** The only entry of a kind that a transaction posts to a bucket carries the whole amount posted. */
  lemma {:induction false} OnlyEntry(t: nat, kind: EntryKind, bucket: Bucket, l: seq<Entry>, n: nat, k: nat)
    requires k < n <= |l| && Weight(Posts(t, kind, bucket), l[k]) == 1 && Sum(Posts(t, kind, bucket), l, n) == 1
    ensures Sum(PostedAmount(t, kind, bucket), l, n) == l[k].amount
  {
    if n - 1 > k {
      SumOne(Posts(t, kind, bucket), l, n - 1, k);
      OnlyEntry(t, kind, bucket, l, n - 1, k);
    } else {
      NoneOfNothing(t, kind, bucket, l, k);
    }
  }

  /** What the ledger says about one payment intent: five bucket nets, and the charge and refund totals and counts. */
  datatype Account = Account(external: int, reserved: int, held: int, available: int, paidOut: int,
                             charged: int, refunded: int, charges: int, refunds: int) {
    function Plus(d: Account): Account {
      Account(external + d.external, reserved + d.reserved, held + d.held, available + d.available, paidOut + d.paidOut,
              charged + d.charged, refunded + d.refunded, charges + d.charges, refunds + d.refunds)
    }

    /** Conservation and solvency. */
    predicate Sound() {
      && external + reserved + held + available + paidOut == 0
      && external == refunded - charged
      && reserved >= 0 && held >= 0 && available >= 0 && paidOut >= 0
      && charges >= 0 && refunds >= 0
    }
  }

  const EMPTY_ACCOUNT := Account(0, 0, 0, 0, 0, 0, 0, 0, 0)

  function Net(l: seq<Entry>, i: nat, k: Bucket): int {
    Tally(BucketNet(i, k), l)
  }

  function AccountOf(l: seq<Entry>, i: nat): Account {
    Account(Net(l, i, CustomerExternal), Net(l, i, PlatformReserved), Net(l, i, ProviderHeld),
            Net(l, i, ProviderAvailable), Net(l, i, ProviderPaidOut),
            Tally(KindTotal(i, CustomerCharge), l), Tally(KindTotal(i, CustomerRefund), l),
            Tally(KindCount(i, CustomerCharge), l), Tally(KindCount(i, CustomerRefund), l))
  }

  lemma AccountAppend(l: seq<Entry>, es: seq<Entry>, i: nat)
    ensures AccountOf(l + es, i) == AccountOf(l, i).Plus(AccountOf(es, i))
  {
    var both := l + es;
    forall q: Query ensures Tally(q, both) == Tally(q, l) + Tally(q, es) {
      TallyAppend(q, l, es);
    }
  }

  predicate OfIntent(es: seq<Entry>, i: nat) {
    forall k :: 0 <= k < |es| ==> es[k].intent == i
  }

  lemma AccountElsewhere(l: seq<Entry>, es: seq<Entry>, i: nat, j: nat)
    requires OfIntent(es, i) && i != j
    ensures AccountOf(l + es, j) == AccountOf(l, j)
  {
    AccountAppend(l, es, j);
    forall q: Query | (q.BucketNet? || q.KindTotal? || q.KindCount?) && q.intent == j ensures Tally(q, es) == 0 {
      SumZero(q, es, |es|);
    }
  }

  /**
   * What the ledger says about one transaction: how many charge, refund and payout postings it made, and of
   * how much.
   */
  datatype Postings = Postings(charges: int, fees: int, helds: int, refunds: int, debits: int, payouts: int,
                               charged: int, feeAmount: int, heldAmount: int, refunded: int, debited: int, paid: int) {
    function Plus(d: Postings): Postings {
      Postings(charges + d.charges, fees + d.fees, helds + d.helds, refunds + d.refunds, debits + d.debits,
               payouts + d.payouts,
               charged + d.charged, feeAmount + d.feeAmount, heldAmount + d.heldAmount,
               refunded + d.refunded, debited + d.debited, paid + d.paid)
    }
  }

  const NO_POSTINGS := Postings(0, 0, 0, 0, 0, 0, 0, 0, 0, 0, 0, 0)

  function PostingsOf(l: seq<Entry>, t: nat): Postings {
    Postings(Tally(Posts(t, CustomerCharge, CustomerExternal), l),
             Tally(Posts(t, PlatformFeeReserved, PlatformReserved), l),
             Tally(Posts(t, ProviderBalanceHeld, ProviderHeld), l),
                 Tally(Posts(t, CustomerRefund, CustomerExternal), l),
             Tally(Posts(t, ProviderPayout, ProviderAvailable), l), Tally(Posts(t, ProviderPayout, ProviderPaidOut), l),
             Tally(PostedAmount(t, CustomerCharge, CustomerExternal), l),
             Tally(PostedAmount(t, PlatformFeeReserved, PlatformReserved), l),
             Tally(PostedAmount(t, ProviderBalanceHeld, ProviderHeld), l),
             Tally(PostedAmount(t, CustomerRefund, CustomerExternal), l),
             Tally(PostedAmount(t, ProviderPayout, ProviderAvailable), l),
             Tally(PostedAmount(t, ProviderPayout, ProviderPaidOut), l))
  }

  lemma PostingsAppend(l: seq<Entry>, es: seq<Entry>, t: nat)
    ensures PostingsOf(l + es, t) == PostingsOf(l, t).Plus(PostingsOf(es, t))
  {
    var both := l + es;
    forall q: Query ensures Tally(q, both) == Tally(q, l) + Tally(q, es) {
      TallyAppend(q, l, es);
    }
  }

  /** No entry of `es` belongs to transaction `t`. */
  predicate Unposted(es: seq<Entry>, t: nat) {
    forall k :: 0 <= k < |es| ==> es[k].txn != Some(t)
  }

  lemma NothingPosted(es: seq<Entry>, t: nat)
    requires Unposted(es, t)
    ensures PostingsOf(es, t) == NO_POSTINGS
  {
    forall q: Query | (q.Posts? || q.PostedAmount?) && q.txn == t ensures Tally(q, es) == 0 {
      SumZero(q, es, |es|);
    }
  }

  lemma PostingsElsewhere(l: seq<Entry>, es: seq<Entry>, t: nat)
    requires Unposted(es, t)
    ensures PostingsOf(l + es, t) == PostingsOf(l, t)
  {
    PostingsAppend(l, es, t);
    NothingPosted(es, t);
  }

  // ----- the four postings -----

  /** `ensureChargeLedgerEntries` */
  function ChargeEntries(job: nat, i: nat, t: nat, amount: nat, fee: nat, net: nat): seq<Entry> {
    [ Entry(job, i, Some(t), Customer, CustomerCharge, amount, Debit, CustomerExternal),
      Entry(job, i, Some(t), Platform, PlatformFeeReserved, fee, Credit, PlatformReserved),
      Entry(job, i, Some(t), Provider, ProviderBalanceHeld, net, Credit, ProviderHeld) ]
  }

  /** `adminReleaseProviderFunds` */
  function ReleaseEntries(job: nat, i: nat, amount: nat): seq<Entry> {
    [ Entry(job, i, None, Provider, ProviderBalanceReleased, amount, Debit, ProviderHeld),
      Entry(job, i, None, Provider, ProviderBalanceReleased, amount, Credit, ProviderAvailable) ]
  }

  /** `adminProcessPayout` */
  function PayoutEntries(job: nat, i: nat, t: nat, amount: nat): seq<Entry> {
    [ Entry(job, i, Some(t), Provider, ProviderPayout, amount, Debit, ProviderAvailable),
      Entry(job, i, Some(t), Provider, ProviderPayout, amount, Credit, ProviderPaidOut) ]
  }

  /** An entry pushed only when its amount is positive. */
  function Push(amount: nat, e: Entry): seq<Entry> {
    if amount > 0 then [e] else []
  }

  /** `appendRefundLedgerEntries` */
  function RefundEntries(job: nat, i: nat, t: nat, amount: nat, platformPart: nat, heldDebit: int,
                         availableDebit: nat): seq<Entry> {
    Push(platformPart, Entry(job, i, Some(t), Platform, Reversal, platformPart, Debit, PlatformReserved))
    + (if heldDebit > 0 then [Entry(job, i, Some(t), Provider, Reversal, heldDebit, Debit, ProviderHeld)] else [])
    + Push(availableDebit, Entry(job, i, Some(t), Provider, Reversal, availableDebit, Debit, ProviderAvailable))
    + [Entry(job, i, Some(t), Customer, CustomerRefund, amount, Credit, CustomerExternal)]
  }

  /** The sum over a short list is the sum of its weights. */
  lemma TallyOfTwo(q: Query, a: Entry, b: Entry)
    ensures Tally(q, [a, b]) == Weight(q, a) + Weight(q, b)
  {
    assert Sum(q, [a, b], 1) == Weight(q, a);
  }

  lemma TallyOfThree(q: Query, a: Entry, b: Entry, c: Entry)
    ensures Tally(q, [a, b, c]) == Weight(q, a) + Weight(q, b) + Weight(q, c)
  {
    assert Sum(q, [a, b, c], 1) == Weight(q, a);
    assert Sum(q, [a, b, c], 2) == Weight(q, a) + Weight(q, b);
  }

  lemma TallyOfPush(q: Query, amount: nat, e: Entry)
    ensures Tally(q, Push(amount, e)) == if amount > 0 then Weight(q, e) else 0
  {
    var l: seq<Entry> := [];
    TallyOne(q, l, e);
    assert l + [e] == [e];
  }

  lemma ChargeTally(q: Query, job: nat, i: nat, t: nat, amount: nat, fee: nat, net: nat)
    ensures var es := ChargeEntries(job, i, t, amount, fee, net);
            Tally(q, es) == Weight(q, es[0]) + Weight(q, es[1]) + Weight(q, es[2])
  {
    var es := ChargeEntries(job, i, t, amount, fee, net);
    TallyOfThree(q, es[0], es[1], es[2]);
  }

  /** A charge moves the gross from the customer to the platform and the provider. */
  lemma ChargeAccount(job: nat, i: nat, t: nat, amount: nat, fee: nat, net: nat)
    ensures AccountOf(ChargeEntries(job, i, t, amount, fee, net), i)
         == Account(-(amount as int), fee, net, 0, 0, amount, 0, 1, 0)
  {
    forall q: Query {
      ChargeTally(q, job, i, t, amount, fee, net);
    }
  }

  lemma ChargePostings(job: nat, i: nat, t: nat, amount: nat, fee: nat, net: nat)
    ensures PostingsOf(ChargeEntries(job, i, t, amount, fee, net), t)
         == Postings(1, 1, 1, 0, 0, 0, amount, fee, net, 0, 0, 0)
  {
    forall q: Query {
      ChargeTally(q, job, i, t, amount, fee, net);
    }
  }

  lemma ReleaseAccount(job: nat, i: nat, amount: nat)
    ensures AccountOf(ReleaseEntries(job, i, amount), i) == Account(0, 0, -(amount as int), amount, 0, 0, 0, 0, 0)
  {
    var es := ReleaseEntries(job, i, amount);
    forall q: Query ensures Tally(q, es) == Weight(q, es[0]) + Weight(q, es[1]) {
      TallyOfTwo(q, es[0], es[1]);
    }
  }

  lemma PayoutAccount(job: nat, i: nat, t: nat, amount: nat)
    ensures AccountOf(PayoutEntries(job, i, t, amount), i) == Account(0, 0, 0, -(amount as int), amount, 0, 0, 0, 0)
  {
    var es := PayoutEntries(job, i, t, amount);
    forall q: Query ensures Tally(q, es) == Weight(q, es[0]) + Weight(q, es[1]) {
      TallyOfTwo(q, es[0], es[1]);
    }
  }

  lemma PayoutPostings(job: nat, i: nat, t: nat, amount: nat)
    ensures PostingsOf(PayoutEntries(job, i, t, amount), t) == Postings(0, 0, 0, 0, 1, 1, 0, 0, 0, 0, amount, amount)
  {
    var es := PayoutEntries(job, i, t, amount);
    forall q: Query ensures Tally(q, es) == Weight(q, es[0]) + Weight(q, es[1]) {
      TallyOfTwo(q, es[0], es[1]);
    }
  }

  lemma RefundTally(q: Query, job: nat, i: nat, t: nat, amount: nat, platformPart: nat, heldDebit: nat,
                    availableDebit: nat)
    ensures Tally(q, RefundEntries(job, i, t, amount, platformPart, heldDebit, availableDebit))
         == (if platformPart > 0 then Weight(q, Entry(job, i, Some(t), Platform, Reversal, platformPart, Debit,
                                                      PlatformReserved)) else 0)
          + (if heldDebit > 0 then Weight(q, Entry(job, i, Some(t), Provider, Reversal, heldDebit, Debit,
                                                   ProviderHeld)) else 0)
          + (if availableDebit > 0 then Weight(q, Entry(job, i, Some(t), Provider, Reversal, availableDebit, Debit,
                                                        ProviderAvailable)) else 0)
          + Weight(q, Entry(job, i, Some(t), Customer, CustomerRefund, amount, Credit, CustomerExternal))
  {
    var a := Entry(job, i, Some(t), Platform, Reversal, platformPart, Debit, PlatformReserved);
    var b := Entry(job, i, Some(t), Provider, Reversal, heldDebit, Debit, ProviderHeld);
    var c := Entry(job, i, Some(t), Provider, Reversal, availableDebit, Debit, ProviderAvailable);
    TallyOfPush(q, platformPart, a);
    TallyOfPush(q, heldDebit, b);
    TallyOfPush(q, availableDebit, c);
    TallyAppend(q, Push(platformPart, a), Push(heldDebit, b));
    TallyAppend(q, Push(platformPart, a) + Push(heldDebit, b), Push(availableDebit, c));
    TallyOne(q, Push(platformPart, a) + Push(heldDebit, b) + Push(availableDebit, c),
             Entry(job, i, Some(t), Customer, CustomerRefund, amount, Credit, CustomerExternal));
  }

  /** A refund takes its parts from the platform, held and available balances and credits the customer. */
  lemma RefundAccount(job: nat, i: nat, t: nat, amount: nat, platformPart: nat, heldDebit: nat, availableDebit: nat)
    ensures AccountOf(RefundEntries(job, i, t, amount, platformPart, heldDebit, availableDebit), i)
         == Account(amount, -(platformPart as int), -(heldDebit as int), -(availableDebit as int), 0, 0, amount, 0, 1)
  {
    forall q: Query {
      RefundTally(q, job, i, t, amount, platformPart, heldDebit, availableDebit);
    }
  }

  lemma RefundPostings(job: nat, i: nat, t: nat, amount: nat, platformPart: nat, heldDebit: nat, availableDebit: nat)
    ensures PostingsOf(RefundEntries(job, i, t, amount, platformPart, heldDebit, availableDebit), t)
         == Postings(0, 0, 0, 1, 0, 0, 0, 0, 0, amount, 0, 0)
  {
    forall q: Query {
      RefundTally(q, job, i, t, amount, platformPart, heldDebit, availableDebit);
    }
  }

  // ----- the query itself -----

  /** The sum a group reports, zero for a direction with no rows. */
  function SumOf(sums: map<Direction, nat>, d: Direction): int {
    if d in sums then sums[d] else 0
  }

  /** `computeBucketNet`: group the matching rows by direction, then credits minus debits. */
  method ComputeBucketNet(rows: seq<Entry>, bucket: Bucket, intent: nat) returns (net: int)
    ensures net == Net(rows, intent, bucket)
  {
    var sums: map<Direction, nat> := map[];
    for n := 0 to |rows|
      invariant SumOf(sums, Credit) - SumOf(sums, Debit)
             == Tally(BucketNet(intent, bucket), rows[..n])
    {
      var e := rows[n];
      assert rows[..n + 1] == rows[..n] + [e];
      TallyOne(BucketNet(intent, bucket), rows[..n], e);
      if e.bucket == bucket && e.actor == ActorOf(bucket) && e.intent == intent {
        sums := sums[e.direction := SumOf(sums, e.direction) + e.amount];
      }
    }
    assert rows[..|rows|] == rows;
    net := 0;
    var groups := [Credit, Debit];
    for g := 0 to 2
      invariant net == (if g > 0 then SumOf(sums, Credit) else 0) - (if g > 1 then SumOf(sums, Debit) else 0)
    {
      var amount := SumOf(sums, groups[g]);
      net := if groups[g] == Credit then net + amount else net - amount;
    }
  }
}
