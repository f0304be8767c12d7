/**
 * `PaymentService`: deposits, withdrawals, the deal commission on a
 * finalized handshake, and paid listing boosts, all written through the
 * storage service. Each method's effect on the database is the matching
 * function of `PaymentLedger`.
 */
module Payment {
  import opened Wrappers
  import opened Records
  import opened Database
  import opened Storage
  import opened PaymentLedger

  class PaymentService {
    const storage: StorageService

    constructor (storage: StorageService)
      ensures this.storage == storage
    {
      this.storage := storage;
    }

    method AddRevenue(fee: real)
      requires storage.Valid()
      modifies storage`stores, storage`channel, storage`invocations
      ensures storage.Valid()
      ensures storage.stores == Booked(old(storage.stores), fee)
      ensures storage.channel == old(storage.channel) + [ChannelMessage(METADATA_UPDATED, storage.contextName)]
      ensures forall l :: storage.Invocations(l) == Count(old(storage.invocations), l) + (if l in storage.listeners then 1 else 0)
    {
      var rev := RevenueOf(storage.GetMetadata(PLATFORM_REVENUE));
      storage.SetMetadata(PLATFORM_REVENUE, Num(Credit(rev, fee)));
    }

    /**
     * Records a successful mobile-money top-up, credits the wallet and
     * posts `GLOBAL_ALERT`. No amount is refused here.
     */
    method ProcessDeposit(userId: string, amount: real, provider: Provider, env: Fresh) returns (tx: Transaction)
      requires storage.Valid() && (provider == Mtn || provider == Airtel)
      modifies storage`stores, storage`channel, storage`invocations
      ensures storage.Valid()
      ensures tx == DepositTx(userId, amount, provider, env)
      ensures storage.stores == Deposited(old(storage.stores), userId, amount, tx, env)
      ensures storage.channel == old(storage.channel) +
        [ChannelMessage(TX_NEW, storage.contextName)] + [ChannelMessage(WALLET_UPDATED, storage.contextName)] + [ChannelMessage(GLOBAL_ALERT, storage.contextName)]
      ensures forall l :: storage.Invocations(l) == Count(old(storage.invocations), l) + (if l in storage.listeners then 3 else 0)
    {
      tx := DepositTx(userId, amount, provider, env);
      storage.SaveTransaction(tx, env.queue1, env.nowMs);
      var currentBalance := storage.GetBalance(userId);
      storage.UpdateBalance(userId, Credit(currentBalance, amount), env.nowMs, env.queue2);
      storage.Broadcast(GLOBAL_ALERT);
    }

    /** `updateBalance(userId, currentBalance - total)`, then `saveTransaction(tx)`. */
    method Charge(userId: string, currentBalance: real, total: real, tx: Transaction, env: Fresh)
      requires storage.Valid() && currentBalance == BalanceIn(storage.stores, userId)
      modifies storage`stores, storage`channel, storage`invocations
      ensures storage.Valid()
      ensures storage.stores == Charged(old(storage.stores), userId, total, tx, env)
      ensures storage.channel == old(storage.channel) +
        [ChannelMessage(WALLET_UPDATED, storage.contextName)] + [ChannelMessage(TX_NEW, storage.contextName)]
      ensures forall l :: storage.Invocations(l) == Count(old(storage.invocations), l) + (if l in storage.listeners then 2 else 0)
    {
      storage.UpdateBalance(userId, Debit(currentBalance, total), env.nowMs, env.queue1);
      storage.SaveTransaction(tx, env.queue2, env.nowMs);
    }

    /** `processWithdrawal` after its balance check has passed. */
    method Withdraw(userId: string, currentBalance: real, amount: real, provider: Provider, env: Fresh)
      returns (tx: Transaction)
      requires storage.Valid() && currentBalance == BalanceIn(storage.stores, userId)
      requires currentBalance >= amount + WITHDRAWAL_FLAT_FEE
      modifies storage`stores, storage`channel, storage`invocations
      ensures storage.Valid()
      ensures tx == WithdrawalTx(userId, amount, provider, env)
      ensures storage.stores == Withdrawn(old(storage.stores), userId, amount + WITHDRAWAL_FLAT_FEE, tx, env)
      ensures BalanceIn(storage.stores, userId) >= 0.0
      ensures storage.channel == old(storage.channel) +
        [ChannelMessage(WALLET_UPDATED, storage.contextName)] + [ChannelMessage(TX_NEW, storage.contextName)] + [ChannelMessage(METADATA_UPDATED, storage.contextName)]
      ensures forall l :: storage.Invocations(l) == Count(old(storage.invocations), l) + (if l in storage.listeners then 3 else 0)
    {
      ghost var before := storage.stores;
      tx := WithdrawalTx(userId, amount, provider, env);
      Charge(userId, currentBalance, amount + WITHDRAWAL_FLAT_FEE, tx, env);
      AddRevenue(WITHDRAWAL_FLAT_FEE);
      WithdrawalDebits(before, userId, amount + WITHDRAWAL_FLAT_FEE, tx, env, userId);
    }

    /**
     * Refused unless the balance covers `amount` plus the flat fee; then
     * debits both, records the withdrawal of the total and books the fee.
     * A refusal writes and posts nothing.
     */
    method ProcessWithdrawal(userId: string, amount: real, provider: Provider, env: Fresh)
      returns (r: Result<Transaction, PaymentError>)
      requires storage.Valid() && (provider == Mtn || provider == Airtel)
      modifies storage`stores, storage`channel, storage`invocations
      ensures storage.Valid()
      ensures r.Err? <==> BalanceIn(old(storage.stores), userId) < amount + WITHDRAWAL_FLAT_FEE
      ensures r.Err? ==> r.error == InsufficientMeshFunds(amount + WITHDRAWAL_FLAT_FEE)
      ensures r.Err? ==> storage.stores == old(storage.stores) && storage.channel == old(storage.channel)
                         && storage.invocations == old(storage.invocations)
      ensures r.Ok? ==>
        && r.value == WithdrawalTx(userId, amount, provider, env)
        && storage.stores == Withdrawn(old(storage.stores), userId, amount + WITHDRAWAL_FLAT_FEE, r.value, env)
        && BalanceIn(storage.stores, userId) >= 0.0
        && storage.channel == old(storage.channel) +
             [ChannelMessage(WALLET_UPDATED, storage.contextName)] + [ChannelMessage(TX_NEW, storage.contextName)] + [ChannelMessage(METADATA_UPDATED, storage.contextName)]
        && forall l :: storage.Invocations(l) == Count(old(storage.invocations), l) + (if l in storage.listeners then 3 else 0)
    {
      var currentBalance := storage.GetBalance(userId);
      var totalDeduction := amount + WITHDRAWAL_FLAT_FEE;
      if currentBalance < totalDeduction {
        return Err(InsufficientMeshFunds(totalDeduction));
      }
      var tx := Withdraw(userId, currentBalance, amount, provider, env);
      return Ok(tx);
    }

    /**
     * Books the 2% deal commission as a `PAYMENT` transaction on the seller
     * and as platform revenue. The seller's balance is read but never
     * checked or debited.
     */
    method FinalizeHandshake(userId: string, sellerId: string, amount: real, env: Fresh)
      requires storage.Valid()
      modifies storage`stores, storage`channel, storage`invocations
      ensures storage.Valid()
      ensures storage.stores == Commissioned(old(storage.stores), amount * PLATFORM_FEE_PERCENT, CommissionTx(sellerId, amount, env), env)
      ensures storage.channel == old(storage.channel) +
        [ChannelMessage(TX_NEW, storage.contextName)] + [ChannelMessage(METADATA_UPDATED, storage.contextName)]
      ensures forall l :: storage.Invocations(l) == Count(old(storage.invocations), l) + (if l in storage.listeners then 2 else 0)
    {
      var commission := amount * PLATFORM_FEE_PERCENT;
      var sellerBalance := storage.GetBalance(sellerId);
      var tx := CommissionTx(sellerId, amount, env);
      storage.SaveTransaction(tx, env.queue1, env.nowMs);
      AddRevenue(commission);
    }

    /** The listing, when there is one under `listingId`, saved again with `isBoosted` set. */
    method MarkBoosted(listingId: string, env: Fresh)
      requires storage.Valid()
      modifies storage`stores, storage`channel, storage`invocations
      ensures storage.Valid()
      ensures storage.stores == WithBoostedListing(old(storage.stores), listingId, env)
      ensures storage.channel == if ListingIn(old(storage.stores), listingId).Some?
        then old(storage.channel) + [ChannelMessage(LISTING_UPDATED, storage.contextName)] else old(storage.channel)
      ensures forall l :: storage.Invocations(l) == Count(old(storage.invocations), l) +
                          (if l in storage.listeners && ListingIn(old(storage.stores), listingId).Some? then 1 else 0)
    {
      var listing := storage.GetListingById(listingId);
      if listing.Some? {
        storage.SaveListing(listing.value.(isBoosted := true), env.nowIso, env.queue3, env.nowMs);
      }
    }

    /** `payForBoost` after its balance check: charge, then the listing. */
    method ChargeAndMark(userId: string, currentBalance: real, listingId: string, tx: Transaction, env: Fresh)
      requires storage.Valid() && currentBalance == BalanceIn(storage.stores, userId)
      modifies storage`stores, storage`channel, storage`invocations
      ensures storage.Valid()
      ensures storage.stores == WithBoostedListing(Charged(old(storage.stores), userId, BOOST_PRICE, tx, env), listingId, env)
      ensures storage.channel == if ListingIn(old(storage.stores), listingId).Some?
        then old(storage.channel) + [ChannelMessage(WALLET_UPDATED, storage.contextName)] + [ChannelMessage(TX_NEW, storage.contextName)]
             + [ChannelMessage(LISTING_UPDATED, storage.contextName)]
        else old(storage.channel) + [ChannelMessage(WALLET_UPDATED, storage.contextName)] + [ChannelMessage(TX_NEW, storage.contextName)]
      ensures forall l :: storage.Invocations(l) == Count(old(storage.invocations), l) +
                          (if l in storage.listeners then (if ListingIn(old(storage.stores), listingId).Some? then 3 else 2) else 0)
    {
      ghost var before := storage.stores;
      Charge(userId, currentBalance, BOOST_PRICE, tx, env);
      ChargeKeepsListings(before, userId, BOOST_PRICE, tx, env, listingId);
      MarkBoosted(listingId, env);
    }

    /** Books `fee` as platform revenue, then posts `GLOBAL_ALERT`. */
    method BookAndAlert(fee: real)
      requires storage.Valid()
      modifies storage`stores, storage`channel, storage`invocations
      ensures storage.Valid()
      ensures storage.stores == Booked(old(storage.stores), fee)
      ensures storage.channel == old(storage.channel) +
        [ChannelMessage(METADATA_UPDATED, storage.contextName)] + [ChannelMessage(GLOBAL_ALERT, storage.contextName)]
      ensures forall l :: storage.Invocations(l) == Count(old(storage.invocations), l) + (if l in storage.listeners then 2 else 0)
    {
      AddRevenue(fee);
      storage.Broadcast(GLOBAL_ALERT);
    }

    /** `payForBoost` after its balance check has passed. */
    method ApplyBoost(userId: string, currentBalance: real, listingId: string, env: Fresh)
      requires storage.Valid() && currentBalance == BalanceIn(storage.stores, userId) && currentBalance >= BOOST_PRICE
      modifies storage`stores, storage`channel, storage`invocations
      ensures storage.Valid()
      ensures storage.stores == Boosted(old(storage.stores), userId, listingId, BoostTx(userId, env), env)
      ensures storage.channel == (if ListingIn(old(storage.stores), listingId).Some?
          then old(storage.channel) + [ChannelMessage(WALLET_UPDATED, storage.contextName)] + [ChannelMessage(TX_NEW, storage.contextName)]
               + [ChannelMessage(LISTING_UPDATED, storage.contextName)]
          else old(storage.channel) + [ChannelMessage(WALLET_UPDATED, storage.contextName)] + [ChannelMessage(TX_NEW, storage.contextName)])
        + [ChannelMessage(METADATA_UPDATED, storage.contextName)] + [ChannelMessage(GLOBAL_ALERT, storage.contextName)]
      ensures forall l :: storage.Invocations(l) == Count(old(storage.invocations), l) +
                          (if l in storage.listeners then (if ListingIn(old(storage.stores), listingId).Some? then 5 else 4) else 0)
    {
      var tx := BoostTx(userId, env);
      ChargeAndMark(userId, currentBalance, listingId, tx, env);
      BookAndAlert(BOOST_PRICE);
    }

    /**
     * Refused unless the balance covers the boost price; then debits it,
     * records the `BOOST` transaction, saves the listing (when it exists)
     * with `isBoosted` set, books the price and posts `GLOBAL_ALERT`.
     * A refusal writes and posts nothing.
     */
    method PayForBoost(userId: string, listingId: string, env: Fresh) returns (r: Result<(), PaymentError>)
      requires storage.Valid()
      modifies storage`stores, storage`channel, storage`invocations
      ensures storage.Valid()
      ensures r.Err? <==> BalanceIn(old(storage.stores), userId) < BOOST_PRICE
      ensures r.Err? ==> r.error == InsufficientBoostFunds(BOOST_PRICE)
      ensures r.Err? ==> storage.stores == old(storage.stores) && storage.channel == old(storage.channel)
                         && storage.invocations == old(storage.invocations)
      ensures r.Ok? ==>
        && storage.stores == Boosted(old(storage.stores), userId, listingId, BoostTx(userId, env), env)
        && BalanceIn(storage.stores, userId) >= 0.0
      ensures r.Ok? ==>
        storage.channel == (if ListingIn(old(storage.stores), listingId).Some?
            then old(storage.channel) + [ChannelMessage(WALLET_UPDATED, storage.contextName)] + [ChannelMessage(TX_NEW, storage.contextName)]
                 + [ChannelMessage(LISTING_UPDATED, storage.contextName)]
            else old(storage.channel) + [ChannelMessage(WALLET_UPDATED, storage.contextName)] + [ChannelMessage(TX_NEW, storage.contextName)])
          + [ChannelMessage(METADATA_UPDATED, storage.contextName)] + [ChannelMessage(GLOBAL_ALERT, storage.contextName)]
      ensures r.Ok? ==>
        forall l :: storage.Invocations(l) == Count(old(storage.invocations), l) +
                    (if l in storage.listeners then (if ListingIn(old(storage.stores), listingId).Some? then 5 else 4) else 0)
    {
      var currentBalance := storage.GetBalance(userId);
      if currentBalance < BOOST_PRICE {
        return Err(InsufficientBoostFunds(BOOST_PRICE));
      }
      ghost var before := storage.stores;
      ApplyBoost(userId, currentBalance, listingId, env);
      BoostDebits(before, userId, listingId, BoostTx(userId, env), env, userId);
      return Ok(());
    }
  }
}
