/**
 * The values behind `PaymentService`: its constants, the transactions it
 * builds, and the effect of each operation on the database as a function
 * of the database before it (`Deposited`, `Withdrawn`, `Commissioned`,
 * `Boosted`), with what each effect does to balances, revenue and records.
 * Random ids and clocks are inputs (`Fresh`).
 */
module PaymentLedger {
  import opened Wrappers
  import opened Records
  import opened Database
  import opened Storage

  const PLATFORM_FEE_PERCENT: real := 0.02
  const WITHDRAWAL_FLAT_FEE: real := 5.0
  const BOOST_PRICE: real := 25.0
  const PLATFORM_REVENUE: string := "platform_revenue"

  /**
   * The values a call draws from the environment: the 9 random base-36
   * characters of a transaction id, `Date.now()` as a number and as its
   * decimal text, `new Date().toISOString()`, and the ids of the outbox
   * entries the call creates, in the order it creates them.
   */
  datatype Fresh = Fresh(random: string, nowMs: int, nowText: string, nowIso: string,
                         queue1: string, queue2: string, queue3: string)

  /** The two refusals, with the amount the message names. */
  datatype PaymentError =
    | InsufficientMeshFunds(needed: real)
    | InsufficientBoostFunds(needed: real)

  function ProviderName(p: Provider): string
  {
    match p
    case Mtn => "MTN"
    case Airtel => "AIRTEL"
    case Wallet => "WALLET"
  }

  /** `(await storage.getMetadata(...)) || 0` used as a number: a truthy `true` adds as 1. */
  function RevenueOf(v: Option<MetaValue>): (n: real)
    ensures v.None? ==> n == 0.0
    ensures v.Some? && v.value.Num? ==> n == v.value.n
    ensures v == Some(Flag(true)) ==> n == 1.0
  {
    match v
    case None => 0.0
    case Some(Num(x)) => x
    case Some(Flag(b)) => if b then 1.0 else 0.0
  }

  /** A running total raised by `amount`. */
  function Credit(total: real, amount: real): real
  {
    total + amount
  }

  /** A running total lowered by `amount`. */
  function Debit(total: real, amount: real): real
  {
    total - amount
  }

  function DepositTx(userId: string, amount: real, provider: Provider, env: Fresh): Transaction
  {
    Transaction("tx_" + env.random, userId, amount, Deposit, TxSuccess, provider,
                "Mobile Money Top-up (" + ProviderName(provider) + ")", env.nowIso, None)
  }

  function WithdrawalTx(userId: string, amount: real, provider: Provider, env: Fresh): Transaction
  {
    Transaction("tx_" + env.random, userId, amount + WITHDRAWAL_FLAT_FEE, Withdrawal, TxSuccess, provider,
                "Withdrawal (Inc. 5 ZK Service Fee)", env.nowIso, None)
  }

  function CommissionTx(sellerId: string, amount: real, env: Fresh): Transaction
  {
    Transaction("tx_fee_" + env.nowText, sellerId, amount * PLATFORM_FEE_PERCENT, Payment, TxSuccess, Wallet,
                "Deal Commission (2%) - Handshake Protocol", env.nowIso, None)
  }

  function BoostTx(userId: string, env: Fresh): Transaction
  {
    Transaction("tx_boost_" + env.nowText, userId, BOOST_PRICE, Boost, TxSuccess, Wallet,
                "Mesh Visibility Upgrade (24h)", env.nowIso, None)
  }

  // ---- database effects ----
  // Each takes the transaction it records as an input; the methods of
  // `PaymentService` say which transaction that is.

  /** `setMetadata('platform_revenue', (getMetadata('platform_revenue') || 0) + fee)`. */
  function Booked(db: Db, fee: real): (d: Db)
    requires forall s: StoreName :: s in db
    ensures forall s: StoreName :: s in d
    ensures forall s :: s != METADATA ==> d[s] == db[s]
  {
    Put(db, METADATA, MetaRec(MetaEntry(PLATFORM_REVENUE, Num(Credit(RevenueOf(MetadataIn(db, PLATFORM_REVENUE)), fee)))))
  }

  /** Booking a fee adds it to the revenue read back, even when the sum is 0 and reads as `null`. */
  lemma BookedRevenue(db: Db, fee: real)
    requires forall s: StoreName :: s in db
    ensures RevenueOf(MetadataIn(Booked(db, fee), PLATFORM_REVENUE)) == RevenueOf(MetadataIn(db, PLATFORM_REVENUE)) + fee
  {
  }

  /** Booking revenue moves no wallet balance. */
  lemma BookedKeepsBalance(db: Db, fee: real, u: string)
    requires forall s: StoreName :: s in db
    ensures BalanceIn(Booked(db, fee), u) == BalanceIn(db, u)
  {
  }

  /** A deposit: the transaction saved, then the wallet credited with `amount`. */
  function Deposited(db: Db, userId: string, amount: real, tx: Transaction, env: Fresh): (d: Db)
    requires forall s: StoreName :: s in db
    ensures forall s: StoreName :: s in d
  {
    var d1 := Saved(db, TRANSACTIONS, TxRow(tx), env.queue1, env.nowMs);
    Saved(d1, WALLET, WalletRow(userId, Credit(BalanceIn(d1, userId), amount), env.nowMs), env.queue2, env.nowMs)
  }

  /** A deposit credits exactly the depositor's wallet with `amount`. */
  lemma DepositCredits(db: Db, userId: string, amount: real, tx: Transaction, env: Fresh, u: string)
    requires forall s: StoreName :: s in db
    ensures BalanceIn(Deposited(db, userId, amount, tx, env), u) ==
            BalanceIn(db, u) + (if u == userId then amount else 0.0)
  {
  }

  /** A deposit records its transaction and touches only transactions, wallet and outbox. */
  lemma DepositRecords(db: Db, userId: string, amount: real, tx: Transaction, env: Fresh)
    requires forall s: StoreName :: s in db
    ensures var d := Deposited(db, userId, amount, tx, env);
      && d[TRANSACTIONS] == db[TRANSACTIONS][tx.id := TxRow(tx)]
      && forall s :: s != TRANSACTIONS && s != WALLET && s != SYNC_QUEUE ==> d[s] == db[s]
  {
  }

  /** A paid operation's first two writes: the wallet debited with `total`, then the transaction saved. */
  function Charged(db: Db, userId: string, total: real, tx: Transaction, env: Fresh): (d: Db)
    requires forall s: StoreName :: s in db
    ensures forall s: StoreName :: s in d
  {
    var d1 := Saved(db, WALLET, WalletRow(userId, Debit(BalanceIn(db, userId), total), env.nowMs), env.queue1, env.nowMs);
    Saved(d1, TRANSACTIONS, TxRow(tx), env.queue2, env.nowMs)
  }

  /** A charge debits exactly the payer's wallet with the total. */
  lemma ChargeDebits(db: Db, userId: string, total: real, tx: Transaction, env: Fresh, u: string)
    requires forall s: StoreName :: s in db
    ensures BalanceIn(Charged(db, userId, total, tx, env), u) ==
            BalanceIn(db, u) - (if u == userId then total else 0.0)
  {
  }

  /** A charge records its transaction and touches only transactions, wallet and outbox. */
  lemma ChargeRecords(db: Db, userId: string, total: real, tx: Transaction, env: Fresh)
    requires forall s: StoreName :: s in db
    ensures var d := Charged(db, userId, total, tx, env);
      && d[TRANSACTIONS] == db[TRANSACTIONS][tx.id := TxRow(tx)]
      && forall s :: s != TRANSACTIONS && s != WALLET && s != SYNC_QUEUE ==> d[s] == db[s]
  {
  }

  /** A withdrawal: the total charged, then the flat fee booked. */
  function Withdrawn(db: Db, userId: string, total: real, tx: Transaction, env: Fresh): (d: Db)
    requires forall s: StoreName :: s in db
    ensures forall s: StoreName :: s in d
  {
    Booked(Charged(db, userId, total, tx, env), WITHDRAWAL_FLAT_FEE)
  }

  /** A withdrawal debits exactly the user's wallet with the total. */
  lemma WithdrawalDebits(db: Db, userId: string, total: real, tx: Transaction, env: Fresh, u: string)
    requires forall s: StoreName :: s in db
    ensures BalanceIn(Withdrawn(db, userId, total, tx, env), u) ==
            BalanceIn(db, u) - (if u == userId then total else 0.0)
  {
    ChargeDebits(db, userId, total, tx, env, u);
    BookedKeepsBalance(Charged(db, userId, total, tx, env), WITHDRAWAL_FLAT_FEE, u);
  }

  /** A withdrawal books the flat fee as platform revenue. */
  lemma WithdrawalBooksFee(db: Db, userId: string, total: real, tx: Transaction, env: Fresh)
    requires forall s: StoreName :: s in db
    ensures RevenueOf(MetadataIn(Withdrawn(db, userId, total, tx, env), PLATFORM_REVENUE)) ==
            RevenueOf(MetadataIn(db, PLATFORM_REVENUE)) + WITHDRAWAL_FLAT_FEE
  {
    BookedRevenue(Charged(db, userId, total, tx, env), WITHDRAWAL_FLAT_FEE);
  }

  /** A withdrawal records its transaction and touches only transactions, wallet, outbox and metadata. */
  lemma WithdrawalRecords(db: Db, userId: string, total: real, tx: Transaction, env: Fresh)
    requires forall s: StoreName :: s in db
    ensures var d := Withdrawn(db, userId, total, tx, env);
      && d[TRANSACTIONS] == db[TRANSACTIONS][tx.id := TxRow(tx)]
      && forall s :: s != TRANSACTIONS && s != WALLET && s != SYNC_QUEUE && s != METADATA ==> d[s] == db[s]
  {
    ChargeRecords(db, userId, total, tx, env);
  }

  /** A finalized handshake: the commission transaction saved and the commission booked. */
  function Commissioned(db: Db, commission: real, tx: Transaction, env: Fresh): (d: Db)
    requires forall s: StoreName :: s in db
    ensures forall s: StoreName :: s in d
  {
    Booked(Saved(db, TRANSACTIONS, TxRow(tx), env.queue1, env.nowMs), commission)
  }

  /** The commission moves no balance, and it is booked as revenue. */
  lemma CommissionBooked(db: Db, commission: real, tx: Transaction, env: Fresh, u: string)
    requires forall s: StoreName :: s in db
    ensures BalanceIn(Commissioned(db, commission, tx, env), u) == BalanceIn(db, u)
    ensures RevenueOf(MetadataIn(Commissioned(db, commission, tx, env), PLATFORM_REVENUE)) ==
            RevenueOf(MetadataIn(db, PLATFORM_REVENUE)) + commission
  {
  }

  /** The commission is recorded, and only transactions, outbox and metadata change. */
  lemma CommissionRecords(db: Db, commission: real, tx: Transaction, env: Fresh)
    requires forall s: StoreName :: s in db
    ensures var d := Commissioned(db, commission, tx, env);
      && d[TRANSACTIONS] == db[TRANSACTIONS][tx.id := TxRow(tx)]
      && forall s :: s != TRANSACTIONS && s != SYNC_QUEUE && s != METADATA ==> d[s] == db[s]
  {
  }

  /** The row `saveListing` stores for the listing with `isBoosted` set. */
  function BoostedRow(l: Listing, env: Fresh): (r: Record)
    ensures r.ListingRec? && r.listing.isBoosted && r.listing.id == l.id && r.listing.syncStatus == Some(Pending)
  {
    ListingRow(l.(isBoosted := true), env.nowIso)
  }

  /** The database after the listing stored under `listingId`, when there is one, is saved boosted. */
  function WithBoostedListing(db: Db, listingId: string, env: Fresh): (d: Db)
    requires forall s: StoreName :: s in db
    ensures forall s: StoreName :: s in d
    ensures ListingIn(db, listingId).Some? ==> var l := ListingIn(db, listingId).value;
      d[LISTINGS] == db[LISTINGS][l.id := BoostedRow(l, env)]
    ensures ListingIn(db, listingId).None? ==> d[LISTINGS] == db[LISTINGS]
    ensures d[METADATA] == db[METADATA] && d[WALLET] == db[WALLET] && d[TRANSACTIONS] == db[TRANSACTIONS]
  {
    match ListingIn(db, listingId)
    case Some(l) => Saved(db, LISTINGS, BoostedRow(l, env), env.queue3, env.nowMs)
    case None => db
  }

  /** A paid boost: the price charged, the listing (when it exists) saved boosted, the price booked. */
  function Boosted(db: Db, userId: string, listingId: string, tx: Transaction, env: Fresh): (d: Db)
    requires forall s: StoreName :: s in db
    ensures forall s: StoreName :: s in d
  {
    Booked(WithBoostedListing(Charged(db, userId, BOOST_PRICE, tx, env), listingId, env), BOOST_PRICE)
  }

  /** Charging leaves every listing where it was. */
  lemma ChargeKeepsListings(db: Db, userId: string, total: real, tx: Transaction, env: Fresh, listingId: string)
    requires forall s: StoreName :: s in db
    ensures ListingIn(Charged(db, userId, total, tx, env), listingId) == ListingIn(db, listingId)
  {
  }

  /** A boost debits exactly the payer's wallet with the boost price. */
  lemma BoostDebits(db: Db, userId: string, listingId: string, tx: Transaction, env: Fresh, u: string)
    requires forall s: StoreName :: s in db
    ensures BalanceIn(Boosted(db, userId, listingId, tx, env), u) ==
            BalanceIn(db, u) - (if u == userId then BOOST_PRICE else 0.0)
  {
    ChargeDebits(db, userId, BOOST_PRICE, tx, env, u);
    BookedKeepsBalance(WithBoostedListing(Charged(db, userId, BOOST_PRICE, tx, env), listingId, env), BOOST_PRICE, u);
  }

  /**
   * A boost sets `isBoosted` on the listing stored under `listingId` when
   * there is one, and leaves the listings alone when there is none.
   */
  lemma BoostMarksListing(db: Db, userId: string, listingId: string, tx: Transaction, env: Fresh)
    requires forall s: StoreName :: s in db
    requires WellFormed(db)
    ensures var d := Boosted(db, userId, listingId, tx, env);
      && (ListingIn(db, listingId).Some? ==>
            d[LISTINGS] == db[LISTINGS][listingId := BoostedRow(ListingIn(db, listingId).value, env)])
      && (ListingIn(db, listingId).None? ==> d[LISTINGS] == db[LISTINGS])
  {
    ChargeKeepsListings(db, userId, BOOST_PRICE, tx, env, listingId);
    ChargeRecords(db, userId, BOOST_PRICE, tx, env);
  }

  /** A boost records its transaction. */
  lemma BoostRecords(db: Db, userId: string, listingId: string, tx: Transaction, env: Fresh)
    requires forall s: StoreName :: s in db
    ensures Boosted(db, userId, listingId, tx, env)[TRANSACTIONS] == db[TRANSACTIONS][tx.id := TxRow(tx)]
  {
    ChargeRecords(db, userId, BOOST_PRICE, tx, env);
  }

  /** A boost books the price as revenue. */
  lemma BoostBooksPrice(db: Db, userId: string, listingId: string, tx: Transaction, env: Fresh)
    requires forall s: StoreName :: s in db
    ensures RevenueOf(MetadataIn(Boosted(db, userId, listingId, tx, env), PLATFORM_REVENUE)) ==
            RevenueOf(MetadataIn(db, PLATFORM_REVENUE)) + BOOST_PRICE
  {
    var d := Charged(db, userId, BOOST_PRICE, tx, env);
    ChargeRecords(db, userId, BOOST_PRICE, tx, env);
    BookedRevenue(WithBoostedListing(d, listingId, env), BOOST_PRICE);
  }
}
