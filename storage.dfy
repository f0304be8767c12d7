/**
 * `StorageService`: the collection-keyed record store. It owns the
 * database, the listener set that `broadcast` and foreign channel
 * messages notify, the cross-context channel (as a log of the
 * `(type, source)` messages posted), and the sync outbox that
 * `ProcessSyncQueue` drains.
 */
module Storage {
  import opened Wrappers
  import opened Records
  import opened Database
  import opened Sorting
  import opened Text

  /** A subscribed callback, by identity. */
  type Listener = nat

  /** A message posted on the `amasampo_sync_mesh` channel: its type and the sender's context name. */
  datatype ChannelMessage = ChannelMessage(eventType: string, source: string)

  const SYNC_CHANNEL: string := "amasampo_sync_mesh"

  const LISTING_UPDATED: string := "LISTING_UPDATED"
  const HANDSHAKE_UPDATED: string := "HANDSHAKE_UPDATED"
  const CLIP_NEW: string := "CLIP_NEW"
  const STORY_NEW: string := "STORY_NEW"
  const FOLLOW_UPDATED: string := "FOLLOW_UPDATED"
  const FAV_UPDATED: string := "FAV_UPDATED"
  const WALLET_UPDATED: string := "WALLET_UPDATED"
  const TX_NEW: string := "TX_NEW"
  const CHAT_NEW: string := "CHAT_NEW"
  const MSG_NEW: string := "MSG_NEW"
  const METADATA_UPDATED: string := "METADATA_UPDATED"
  const MESH_SYNC_START: string := "MESH_SYNC_START"
  const MESH_SYNC_COMPLETE: string := "MESH_SYNC_COMPLETE"
  const GLOBAL_ALERT: string := "GLOBAL_ALERT"

  /** How often listener `l` has been invoked, by the count map `m`. */
  function Count(m: map<Listener, nat>, l: Listener): nat
  {
    if l in m then m[l] else 0
  }

  // ---- projections of records read back from a store ----

  function AsListing(r: Record): Option<Listing> { if r.ListingRec? then Some(r.listing) else None }
  function AsTx(r: Record): Option<Transaction> { if r.TxRec? then Some(r.tx) else None }
  function AsMessage(r: Record): Option<Message> { if r.MessageRec? then Some(r.message) else None }
  function AsClip(r: Record): Option<Clip> { if r.ClipRec? then Some(r.clip) else None }
  function AsStory(r: Record): Option<Story> { if r.StoryRec? then Some(r.story) else None }
  function AsChat(r: Record): Option<ChatSession> { if r.ChatRec? then Some(r.chat) else None }
  function AsHandshake(r: Record): Option<Handshake> { if r.HandshakeRec? then Some(r.handshake) else None }
  function AsFollowId(r: Record): Option<string> { if r.FollowRec? then Some(r.follow.id) else None }

  /** The records of `rs` that `f` accepts, projected, in order. */
  function Select<T>(rs: seq<Record>, f: Record -> Option<T>): (r: seq<T>)
    ensures |r| <= |rs|
  {
    if |rs| == 0 then [] else (if f(rs[0]).Some? then [f(rs[0]).value] else []) + Select(rs[1..], f)
  }

  /** When `r0` is the only record of `rs` that projects to `x`, `x` occurs as often as `r0`. */
  lemma {:induction false} SelectCount<T>(rs: seq<Record>, f: Record -> Option<T>, x: T, r0: Record)
    requires forall r :: r in rs ==> (f(r) == Some(x) <==> r == r0)
    ensures multiset(Select(rs, f))[x] == multiset(rs)[r0]
  {
    if |rs| > 0 {
      SelectCount(rs[1..], f, x, r0);
      assert rs == [rs[0]] + rs[1..];
    }
  }

  /** A follow record is stored under the id it follows, so each followed id is read back once. */
  lemma {:induction false} FollowIdsOnce(m: map<string, Record>, rs: seq<Record>, id: string)
    requires forall k :: k in m ==> Fits(FOLLOWS, k, m[k])
    requires forall x :: multiset(rs)[x] == if x in m.Values then 1 else 0
    ensures multiset(Select(rs, AsFollowId))[id] == if id in m then 1 else 0
  {
    var r0 := if id in m then m[id] else FollowRec(Follow(id, 0));
    forall x | x in rs ensures AsFollowId(x) == Some(id) <==> x == r0 {
      assert multiset(rs)[x] > 0;
      var k :| k in m && m[k] == x;
      assert Fits(FOLLOWS, k, x);
    }
    SelectCount(rs, AsFollowId, id, r0);
  }

  /** `list.filter(t => t.userId === userId)`. */
  function OfUser(txs: seq<Transaction>, userId: string): (r: seq<Transaction>)
    ensures forall t :: multiset(r)[t] == if t.userId == userId then multiset(txs)[t] else 0
  {
    if |txs| == 0 then []
    else
      assert txs == [txs[0]] + txs[1..];
      (if txs[0].userId == userId then [txs[0]] else []) + OfUser(txs[1..], userId)
  }

  /** `msgs.filter(m => m.chatId === chatId)`. */
  function OfChat(msgs: seq<Message>, chatId: string): (r: seq<Message>)
    ensures forall m :: multiset(r)[m] == if m.chatId == chatId then multiset(msgs)[m] else 0
  {
    if |msgs| == 0 then []
    else
      assert msgs == [msgs[0]] + msgs[1..];
      (if msgs[0].chatId == chatId then [msgs[0]] else []) + OfChat(msgs[1..], chatId)
  }

  /** `hs.find(h => h.chatId === chatId)`: the first handshake of the chat. */
  function FindByChat(hs: seq<Handshake>, chatId: string): (r: Option<Handshake>)
    ensures r.Some? ==> r.value in hs && r.value.chatId == chatId
    ensures r.Some? ==> exists i :: 0 <= i < |hs| && hs[i] == r.value && forall k :: 0 <= k < i ==> hs[k].chatId != chatId
    ensures r.None? ==> forall h :: h in hs ==> h.chatId != chatId
  {
    if |hs| == 0 then None
    else if hs[0].chatId == chatId then
      assert hs[0] == hs[0];
      Some(hs[0])
    else
      var r := FindByChat(hs[1..], chatId);
      assert r.Some? ==> exists i :: 0 <= i < |hs| && hs[i] == r.value && forall k :: 0 <= k < i ==> hs[k].chatId != chatId by {
        if r.Some? {
          var i :| 0 <= i < |hs[1..]| && hs[1..][i] == r.value && forall k :: 0 <= k < i ==> hs[1..][k].chatId != chatId;
          assert forall k :: 0 < k <= i ==> hs[k] == hs[1..][k - 1];
          assert hs[i + 1] == r.value;
        }
      }
      r
  }

  // ---- the orders the reads sort by (comparator <= 0) ----

  /** `b.createdAt.localeCompare(a.createdAt)`: newest listing first. */
  predicate NewerListingFirst(a: Listing, b: Listing) { StrLe(b.createdAt, a.createdAt) }

  /** `b.timestamp.localeCompare(a.timestamp)`: newest transaction first. */
  predicate NewerTxFirst(a: Transaction, b: Transaction) { StrLe(b.timestamp, a.timestamp) }

  /** `a.id.localeCompare(b.id)`: messages by ascending id. */
  predicate MessageIdOrder(a: Message, b: Message) { StrLe(a.id, b.id) }

  lemma NewerListingFirstIsPreorder()
    ensures TotalPreorder(NewerListingFirst)
  {
    forall a: Listing, b: Listing ensures NewerListingFirst(a, b) || NewerListingFirst(b, a) {
      StrLeTotal(a.createdAt, b.createdAt);
    }
    forall a: Listing, b: Listing, c: Listing | NewerListingFirst(a, b) && NewerListingFirst(b, c)
      ensures NewerListingFirst(a, c)
    {
      StrLeTrans(c.createdAt, b.createdAt, a.createdAt);
    }
  }

  lemma NewerTxFirstIsPreorder()
    ensures TotalPreorder(NewerTxFirst)
  {
    forall a: Transaction, b: Transaction ensures NewerTxFirst(a, b) || NewerTxFirst(b, a) {
      StrLeTotal(a.timestamp, b.timestamp);
    }
    forall a: Transaction, b: Transaction, c: Transaction | NewerTxFirst(a, b) && NewerTxFirst(b, c)
      ensures NewerTxFirst(a, c)
    {
      StrLeTrans(c.timestamp, b.timestamp, a.timestamp);
    }
  }

  lemma MessageIdOrderIsPreorder()
    ensures TotalPreorder(MessageIdOrder)
  {
    forall a: Message, b: Message ensures MessageIdOrder(a, b) || MessageIdOrder(b, a) {
      StrLeTotal(a.id, b.id);
    }
    forall a: Message, b: Message, c: Message | MessageIdOrder(a, b) && MessageIdOrder(b, c)
      ensures MessageIdOrder(a, c)
    {
      StrLeTrans(a.id, b.id, c.id);
    }
  }

  // ---- the records the save wrappers write ----

  /** `{ ...listing, createdAt: listing.createdAt || now, syncStatus: 'PENDING' }`. */
  function CleanListing(listing: Listing, nowIso: string): (c: Listing)
    ensures c.syncStatus == Some(Pending)
    ensures listing.createdAt != "" ==> c.createdAt == listing.createdAt
    ensures listing.createdAt == "" ==> c.createdAt == nowIso
    ensures c.(createdAt := listing.createdAt, syncStatus := listing.syncStatus) == listing
  {
    listing.(createdAt := if listing.createdAt != "" then listing.createdAt else nowIso, syncStatus := Some(Pending))
  }

  /** `data.views = (data.views || 0) + 1`. */
  function BumpViews(l: Listing): (l': Listing)
    ensures l'.views.Some? && l'.views.value == (if l.views.Some? then l.views.value else 0) + 1
    ensures l'.(views := l.views) == l
  {
    l.(views := Some((if l.views.Some? then l.views.value else 0) + 1))
  }

  /** A metadata value `|| null` turns into `null`. */
  predicate Falsy(v: MetaValue)
  {
    v == Num(0.0) || v == Flag(false)
  }

  /** The stored metadata value, unless it is missing or falsy (`req.result?.value || null`). */
  function MetadataIn(db: Db, key: string): (r: Option<MetaValue>)
    requires METADATA in db
    ensures r.Some? <==> key in db[METADATA] && db[METADATA][key].MetaRec? && !Falsy(db[METADATA][key].meta.value)
    ensures r.Some? ==> r.value == db[METADATA][key].meta.value
  {
    if key in db[METADATA] && db[METADATA][key].MetaRec? && !Falsy(db[METADATA][key].meta.value)
    then Some(db[METADATA][key].meta.value)
    else None
  }

  /** The listing stored under `id`, if any (`req.result || null`). */
  function ListingIn(db: Db, id: string): (r: Option<Listing>)
    requires LISTINGS in db
    ensures r.Some? <==> id in db[LISTINGS] && db[LISTINGS][id].ListingRec?
    ensures r.Some? ==> db[LISTINGS][id] == ListingRec(r.value)
  {
    if id in db[LISTINGS] && db[LISTINGS][id].ListingRec? then Some(db[LISTINGS][id].listing) else None
  }

  /** `req.result?.balance || 0`. */
  function BalanceIn(db: Db, userId: string): (b: real)
    requires WALLET in db
    ensures userId !in db[WALLET] ==> b == 0.0
    ensures userId in db[WALLET] && db[WALLET][userId].WalletRec? ==> b == db[WALLET][userId].wallet.balance
  {
    if userId in db[WALLET] && db[WALLET][userId].WalletRec? then db[WALLET][userId].wallet.balance else 0.0
  }

  /** The records stored under the keys `ks`. */
  ghost function ValuesAt(m: ObjectStore, ks: set<string>): set<Record>
  {
    set k | k in ks && k in m :: m[k]
  }

  /**
   * A synced write: the record put under its key, then an outbox entry
   * `queueId` that carries it. Every other store is left alone.
   */
  function Saved(db: Db, s: StoreName, data: Record, queueId: string, nowMs: int): (d: Db)
    requires forall t: StoreName :: t in db
    requires s in SyncedStores && KindFits(s, data)
    ensures forall t: StoreName :: t in d
    ensures d[s] == db[s][PrimaryKey(s, data) := data]
    ensures d[SYNC_QUEUE] == db[SYNC_QUEUE][queueId := QueueRec(SyncItem(queueId, s, data, PutAction, nowMs))]
    ensures forall t :: t != s && t != SYNC_QUEUE ==> d[t] == db[t]
  {
    db[s := db[s][PrimaryKey(s, data) := data]][SYNC_QUEUE := db[SYNC_QUEUE][queueId := QueueRec(SyncItem(queueId, s, data, PutAction, nowMs))]]
  }

  /** Saving is the store's `put` followed by the outbox `put`. */
  lemma SavedIsPuts(db: Db, s: StoreName, data: Record, queueId: string, nowMs: int)
    requires forall t: StoreName :: t in db
    requires s in SyncedStores && KindFits(s, data)
    ensures Saved(db, s, data, queueId, nowMs) == Put(Put(db, s, data), SYNC_QUEUE, QueueRec(SyncItem(queueId, s, data, PutAction, nowMs)))
  {
    var q := QueueRec(SyncItem(queueId, s, data, PutAction, nowMs));
    var d1 := db[s := db[s][PrimaryKey(s, data) := data]];
    assert Put(db, s, data) == d1;
    assert s != SYNC_QUEUE && d1[SYNC_QUEUE] == db[SYNC_QUEUE];
    assert PrimaryKey(SYNC_QUEUE, q) == queueId;
    assert Put(d1, SYNC_QUEUE, q) == d1[SYNC_QUEUE := db[SYNC_QUEUE][queueId := q]];
  }

  /** The write of `toggleFollow`: an unfollow when the id is followed, else a follow stamped `nowMs`. */
  function FollowToggled(db: Db, targetId: string, nowMs: int): (d: Db)
    requires FOLLOWS in db
    ensures d.Keys == db.Keys
    ensures targetId in d[FOLLOWS] <==> targetId !in db[FOLLOWS]
    ensures targetId in d[FOLLOWS] ==> d[FOLLOWS][targetId] == FollowRec(Follow(targetId, nowMs))
    ensures forall t, k :: t in db && (t != FOLLOWS || k != targetId) ==> Get(d, t, k) == Get(db, t, k)
  {
    if targetId in db[FOLLOWS] then Delete(db, FOLLOWS, targetId)
    else Put(db, FOLLOWS, FollowRec(Follow(targetId, nowMs)))
  }

  /**
   * Toggling a follow twice restores the follows: exactly when the id was
   * not followed, and up to the follow's new timestamp when it was.
   */
  lemma FollowToggledTwice(db: Db, targetId: string, t1: int, t2: int)
    requires FOLLOWS in db
    ensures targetId !in db[FOLLOWS] ==> FollowToggled(FollowToggled(db, targetId, t1), targetId, t2) == db
    ensures targetId in db[FOLLOWS] ==>
      FollowToggled(FollowToggled(db, targetId, t1), targetId, t2) == Put(db, FOLLOWS, FollowRec(Follow(targetId, t2)))
  {
    if targetId !in db[FOLLOWS] {
      PutThenDelete(db, FOLLOWS, FollowRec(Follow(targetId, t1)));
    } else {
      DeleteThenPutKeys(db, FOLLOWS, FollowRec(Follow(targetId, t2)));
    }
  }

  /** The write of `toggleFavorite`: the favourite removed when its id is stored, else the listing stored. */
  function FavoriteToggled(db: Db, listing: Listing): (d: Db)
    requires FAVORITES in db
    ensures d.Keys == db.Keys
    ensures listing.id in d[FAVORITES] <==> listing.id !in db[FAVORITES]
    ensures listing.id in d[FAVORITES] ==> d[FAVORITES][listing.id] == ListingRec(listing)
    ensures forall t, k :: t in db && (t != FAVORITES || k != listing.id) ==> Get(d, t, k) == Get(db, t, k)
  {
    if listing.id in db[FAVORITES] then Delete(db, FAVORITES, listing.id)
    else Put(db, FAVORITES, ListingRec(listing))
  }

  /**
   * Toggling the same listing twice restores the favourites when it was
   * not a favourite, or was stored as this very listing; otherwise the
   * stored copy is replaced by the one passed in.
   */
  lemma FavoriteToggledTwice(db: Db, listing: Listing)
    requires FAVORITES in db
    ensures listing.id !in db[FAVORITES] ==> FavoriteToggled(FavoriteToggled(db, listing), listing) == db
    ensures listing.id in db[FAVORITES] ==>
      FavoriteToggled(FavoriteToggled(db, listing), listing) == Put(db, FAVORITES, ListingRec(listing))
    ensures listing.id in db[FAVORITES] && db[FAVORITES][listing.id] == ListingRec(listing) ==>
      FavoriteToggled(FavoriteToggled(db, listing), listing) == db
  {
    if listing.id !in db[FAVORITES] {
      PutThenDelete(db, FAVORITES, ListingRec(listing));
    } else {
      DeleteThenPutKeys(db, FAVORITES, ListingRec(listing));
      if db[FAVORITES][listing.id] == ListingRec(listing) {
        PutUnchanged(db, FAVORITES, ListingRec(listing));
      }
    }
  }

  // The rows the save operations write: each marked `PENDING`.

  function HandshakeRow(hs: Handshake): Record { HandshakeRec(hs.(syncStatus := Some(Pending))) }

  function ListingRow(listing: Listing, nowIso: string): Record { ListingRec(CleanListing(listing, nowIso)) }

  function ClipRow(clip: Clip): Record { ClipRec(clip.(syncStatus := Some(Pending))) }

  function WalletRow(userId: string, balance: real, nowMs: int): Record
  {
    WalletRec(WalletEntry(userId, balance, nowMs, Some(Pending)))
  }

  function TxRow(tx: Transaction): Record { TxRec(tx.(syncStatus := Some(Pending))) }

  function ChatRow(session: ChatSession): Record { ChatRec(session.(syncStatus := Some(Pending))) }

  /** Every outbox entry records where its data may be looked up again. */
  ghost predicate AllKeyed(queue: ObjectStore)
  {
    forall k :: k in queue ==> queue[k].QueueRec? && LookupKey(queue[k].item.data).Some?
  }

  /**
   * Where an entry without a lookup key stops the drain of the snapshot
   * `db[SYNC_QUEUE]`: the entries `done` handled before it are stamped and
   * dequeued (each ran in its own transactions), and that entry, with every
   * other one not yet handled, is still in the outbox.
   */
  ghost predicate StoppedDrain(db: Db, d: Db)
    requires SYNC_QUEUE in db
  {
    exists done :: done < db[SYNC_QUEUE].Keys && d == Drained(db, done) &&
      exists k :: k in db[SYNC_QUEUE].Keys - done && db[SYNC_QUEUE][k].QueueRec? && LookupKey(db[SYNC_QUEUE][k].item.data).None?
  }

  /** A stopped drain leaves the keyless entry in the outbox, so the outbox is not empty. */
  lemma StoppedDrainKeepsEntry(db: Db, d: Db)
    requires SYNC_QUEUE in db && StoppedDrain(db, d)
    ensures SYNC_QUEUE in d && d[SYNC_QUEUE] != map[]
  {
    var done :| done < db[SYNC_QUEUE].Keys && d == Drained(db, done) &&
      exists k :: k in db[SYNC_QUEUE].Keys - done && db[SYNC_QUEUE][k].QueueRec? && LookupKey(db[SYNC_QUEUE][k].item.data).None?;
    var k :| k in db[SYNC_QUEUE].Keys - done;
    assert k in d[SYNC_QUEUE];
  }

  /**
   * One pass of the drain loop: `get` the live record the entry names, `put`
   * it back stamped when present, then `delete` the entry by its id.
   */
  method StampAndDequeue(d: Db, item: SyncItem) returns (d': Db)
    requires WellFormed(d) && OutboxTargetsSynced(d) && (forall s: StoreName :: s in d)
    requires item.id in d[SYNC_QUEUE] && d[SYNC_QUEUE][item.id] == QueueRec(item)
    requires LookupKey(item.data).Some?
    ensures d' == DrainStep(d, item, item.id)
    ensures WellFormed(d') && OutboxTargetsSynced(d') && (forall s: StoreName :: s in d')
  {
    DrainStepWellFormed(d, item, item.id);
    var live := Get(d, item.store, LookupKey(item.data).value);
    d' := d;
    if live.Some? {
      DrainStepIsPutDelete(d, item, item.id);
      d' := Put(d', item.store, SetSynced(live.value));
    }
    d' := Delete(d', SYNC_QUEUE, item.id);
  }

  class StorageService {
    /** `window.name`: the identity this context tags its channel messages with. */
    const contextName: string
    /** The open database. */
    var stores: Db
    var listeners: set<Listener>
    /** How often each callback has been invoked. */
    var invocations: map<Listener, nat>
    /** Every message this context has posted on the channel, oldest first. */
    var channel: seq<ChannelMessage>
    var isSyncing: bool

    ghost predicate Valid()
      reads this`stores
    {
      && (forall s: StoreName :: s in stores)
      && WellFormed(stores)
      && OutboxTargetsSynced(stores)
    }

    function Invocations(l: Listener): nat
      reads this`invocations
    {
      Count(invocations, l)
    }

    /** A new service over the database found on disk, opened with the schema upgrade. */
    constructor (name: string, onDisk: Db)
      requires WellFormed(onDisk) && OutboxTargetsSynced(onDisk)
      ensures Valid()
      ensures contextName == name && stores == Upgrade(onDisk)
      ensures listeners == {} && invocations == map[] && channel == [] && !isSyncing
    {
      contextName := name;
      UpgradeWellFormed(onDisk);
      stores := Upgrade(onDisk);
      listeners := {};
      invocations := map[];
      channel := [];
      isSyncing := false;
    }

    // ---- change notification ----

    /** `listeners.forEach(l => l())`: every current listener is invoked once. */
    method NotifyListeners()
      modifies this`invocations
      ensures forall l :: Invocations(l) == Count(old(invocations), l) + (if l in listeners then 1 else 0)
    {
      var todo := listeners;
      while todo != {}
        invariant todo <= listeners
        invariant forall l :: Invocations(l) == Count(old(invocations), l) + (if l in listeners - todo then 1 else 0)
        decreases todo
      {
        var l :| l in todo;
        invocations := invocations[l := Invocations(l) + 1];
        todo := todo - {l};
      }
    }

    /** `subscribe(callback)`; the returned function is `Unsubscribe(callback)`. */
    method Subscribe(callback: Listener)
      modifies this`listeners
      ensures listeners == old(listeners) + {callback}
    {
      listeners := listeners + {callback};
    }

    /** The function `subscribe` returns: removes exactly that callback; a second call is a no-op. */
    method Unsubscribe(callback: Listener)
      modifies this`listeners
      ensures listeners == old(listeners) - {callback}
      ensures callback !in old(listeners) ==> listeners == old(listeners)
    {
      listeners := listeners - {callback};
    }

    /** Posts `(type, window.name)` on the channel, then invokes every local listener. */
    method Broadcast(eventType: string)
      modifies this`channel, this`invocations
      ensures channel == old(channel) + [ChannelMessage(eventType, contextName)]
      ensures forall l :: Invocations(l) == Count(old(invocations), l) + (if l in listeners then 1 else 0)
    {
      channel := channel + [ChannelMessage(eventType, contextName)];
      NotifyListeners();
    }

    /** The channel's `onmessage`: only a message from another context notifies the listeners. */
    method OnChannelMessage(msg: ChannelMessage)
      modifies this`invocations
      ensures msg.source != contextName ==>
        forall l :: Invocations(l) == Count(old(invocations), l) + (if l in listeners then 1 else 0)
      ensures msg.source == contextName ==> invocations == old(invocations)
    {
      if msg.source != contextName {
        NotifyListeners();
      }
    }

    // ---- the outbox ----

    method AddToSyncQueue(store: StoreName, data: Record, action: SyncAction, itemId: string, nowMs: int)
      requires Valid() && store in SyncedStores
      modifies this`stores
      ensures Valid()
      ensures stores == Put(old(stores), SYNC_QUEUE, QueueRec(SyncItem(itemId, store, data, action, nowMs)))
    {
      var item := SyncItem(itemId, store, data, action, nowMs);
      PutWellFormed(stores, SYNC_QUEUE, QueueRec(item));
      stores := Put(stores, SYNC_QUEUE, QueueRec(item));
    }

    /** The store's `put` of `data`, then `addToSyncQueue` of the same record. */
    method PutAndQueue(store: StoreName, data: Record, queueId: string, nowMs: int)
      requires Valid() && store in SyncedStores && KindFits(store, data)
      modifies this`stores
      ensures Valid()
      ensures stores == Saved(old(stores), store, data, queueId, nowMs)
    {
      SavedIsPuts(stores, store, data, queueId, nowMs);
      PutWellFormed(stores, store, data);
      stores := Put(stores, store, data);
      AddToSyncQueue(store, data, PutAction, queueId, nowMs);
    }

    /**
     * Drains a snapshot of the outbox: a no-op while a drain is running or
     * when the outbox is empty; otherwise announces the start, stamps each
     * entry's live record `SYNCED` and deletes the entry, then clears
     * `isSyncing` and announces completion. An entry whose data has neither
     * a truthy `id` nor a `userId` makes the database `get` throw: the drain
     * stops there, the entries handled before it stay stamped and dequeued,
     * and `isSyncing` stays set.
     */
    method ProcessSyncQueue()
      requires Valid()
      modifies this`stores, this`channel, this`invocations, this`isSyncing
      ensures Valid()
      ensures old(isSyncing) || old(stores[SYNC_QUEUE]) == map[] ==>
        stores == old(stores) && channel == old(channel) && invocations == old(invocations) && isSyncing == old(isSyncing)
      ensures !old(isSyncing) && old(stores[SYNC_QUEUE]) != map[] && AllKeyed(old(stores[SYNC_QUEUE])) ==>
        && stores == Drained(old(stores), old(stores[SYNC_QUEUE]).Keys)
        && stores[SYNC_QUEUE] == map[]
        && !isSyncing
        && channel == old(channel) + [ChannelMessage(MESH_SYNC_START, contextName)] + [ChannelMessage(MESH_SYNC_COMPLETE, contextName)]
        && forall l :: Invocations(l) == Count(old(invocations), l) + (if l in listeners then 2 else 0)
      ensures !old(isSyncing) && !AllKeyed(old(stores[SYNC_QUEUE])) ==>
        && StoppedDrain(old(stores), stores)
        && isSyncing
        && channel == old(channel) + [ChannelMessage(MESH_SYNC_START, contextName)]
        && forall l :: Invocations(l) == Count(old(invocations), l) + (if l in listeners then 1 else 0)
    {
      if isSyncing { return; }
      var items := stores[SYNC_QUEUE];
      if |items| == 0 { return; }
      isSyncing := true;
      Broadcast(MESH_SYNC_START);
      DrainAndFinish(items);
    }

    /**
     * The rest of the `onsuccess` handler of `processSyncQueue` once the
     * start is announced: the drain, then `isSyncing` cleared and completion
     * announced, unless an entry without a lookup key stopped the drain.
     */
    method DrainAndFinish(items: ObjectStore)
      requires Valid() && items == stores[SYNC_QUEUE] && isSyncing
      modifies this`stores, this`channel, this`invocations, this`isSyncing
      ensures Valid()
      ensures AllKeyed(items) ==>
        && stores == Drained(old(stores), items.Keys)
        && stores[SYNC_QUEUE] == map[]
        && !isSyncing
        && channel == old(channel) + [ChannelMessage(MESH_SYNC_COMPLETE, contextName)]
        && forall l :: Invocations(l) == Count(old(invocations), l) + (if l in listeners then 1 else 0)
      ensures !AllKeyed(items) ==>
        StoppedDrain(old(stores), stores) && isSyncing && channel == old(channel) && invocations == old(invocations)
    {
      var finished := DrainSnapshot(items);
      if finished {
        isSyncing := false;
        Broadcast(MESH_SYNC_COMPLETE);
      }
    }

    /** One pass of the `processSyncQueue` loop: the snapshot's entry `k` stamped and dequeued. */
    method DrainEntry(ghost db0: Db, ghost done: set<string>, k: string)
      requires WellFormed(db0) && OutboxTargetsSynced(db0) && (forall s: StoreName :: s in db0)
      requires k in db0[SYNC_QUEUE] && k !in done && stores == Drained(db0, done)
      requires LookupKey(db0[SYNC_QUEUE][k].item.data).Some?
      modifies this`stores
      ensures stores == Drained(db0, done + {k})
    {
      DrainedWellFormed(db0, done);
      var item := stores[SYNC_QUEUE][k].item;
      OutboxEntryKey(k, db0[SYNC_QUEUE][k]);
      DrainedStep(db0, done, k);
      stores := StampAndDequeue(stores, item);
    }

    /**
     * The loop of `processSyncQueue` over the snapshot `items`. It returns
     * false where the loop throws: at an entry with no lookup key.
     */
    method DrainSnapshot(items: ObjectStore) returns (finished: bool)
      requires Valid() && items == stores[SYNC_QUEUE]
      modifies this`stores
      ensures Valid()
      ensures finished <==> AllKeyed(items)
      ensures finished ==> stores == Drained(old(stores), items.Keys)
      ensures !finished ==> StoppedDrain(old(stores), stores)
    {
      ghost var db0 := stores;
      DrainedNothing(db0);
      var todo := items.Keys;
      ghost var done: set<string> := {};
      while todo != {}
        invariant todo <= items.Keys && done <= items.Keys
        invariant todo !! done && todo + done == items.Keys
        invariant stores == Drained(db0, done)
        invariant forall k :: k in done ==> LookupKey(items[k].item.data).Some?
        decreases todo
      {
        var k :| k in todo;
        var item := items[k].item;
        if LookupKey(item.data).None? {
          DrainedWellFormed(db0, done);
          assert k in items.Keys - done && done < items.Keys;
          return false;
        }
        DrainEntry(db0, done, k);
        done := done + {k};
        todo := todo - {k};
      }
      assert done == items.Keys;
      DrainedWellFormed(db0, done);
      return true;
    }

    // ---- writes ----

    /** Stored `PENDING`, queued for sync, `HANDSHAKE_UPDATED` posted. */
    method SaveHandshake(hs: Handshake, queueId: string, nowMs: int)
      requires Valid()
      modifies this`stores, this`channel, this`invocations
      ensures Valid()
      ensures stores == Saved(old(stores), HANDSHAKES, HandshakeRow(hs), queueId, nowMs)
      ensures channel == old(channel) + [ChannelMessage(HANDSHAKE_UPDATED, contextName)]
      ensures forall l :: Invocations(l) == Count(old(invocations), l) + (if l in listeners then 1 else 0)
    {
      var data := HandshakeRow(hs);
      PutAndQueue(HANDSHAKES, data, queueId, nowMs);
      Broadcast(HANDSHAKE_UPDATED);
    }

    /** Stored `PENDING` with `createdAt` defaulted to `nowIso`, queued, `LISTING_UPDATED` posted. */
    method SaveListing(listing: Listing, nowIso: string, queueId: string, nowMs: int)
      requires Valid()
      modifies this`stores, this`channel, this`invocations
      ensures Valid()
      ensures stores == Saved(old(stores), LISTINGS, ListingRow(listing, nowIso), queueId, nowMs)
      ensures channel == old(channel) + [ChannelMessage(LISTING_UPDATED, contextName)]
      ensures forall l :: Invocations(l) == Count(old(invocations), l) + (if l in listeners then 1 else 0)
    {
      var data := ListingRow(listing, nowIso);
      PutAndQueue(LISTINGS, data, queueId, nowMs);
      Broadcast(LISTING_UPDATED);
    }

    /** Stored `PENDING`, queued, `CLIP_NEW` posted. */
    method SaveClip(clip: Clip, queueId: string, nowMs: int)
      requires Valid()
      modifies this`stores, this`channel, this`invocations
      ensures Valid()
      ensures stores == Saved(old(stores), CLIPS, ClipRow(clip), queueId, nowMs)
      ensures channel == old(channel) + [ChannelMessage(CLIP_NEW, contextName)]
      ensures forall l :: Invocations(l) == Count(old(invocations), l) + (if l in listeners then 1 else 0)
    {
      var data := ClipRow(clip);
      PutAndQueue(CLIPS, data, queueId, nowMs);
      Broadcast(CLIP_NEW);
    }

    /** Stored as given, `STORY_NEW` posted; stories are not queued for sync. */
    method SaveStory(story: Story)
      requires Valid()
      modifies this`stores, this`channel, this`invocations
      ensures Valid()
      ensures stores == Put(old(stores), STORIES, StoryRec(story))
      ensures channel == old(channel) + [ChannelMessage(STORY_NEW, contextName)]
      ensures forall l :: Invocations(l) == Count(old(invocations), l) + (if l in listeners then 1 else 0)
    {
      PutWellFormed(stores, STORIES, StoryRec(story));
      stores := Put(stores, STORIES, StoryRec(story));
      Broadcast(STORY_NEW);
    }

    /** Unfollows a followed id, else follows it stamped `nowMs`; returns whether it is now followed. */
    method ToggleFollow(targetId: string, nowMs: int) returns (following: bool)
      requires Valid()
      modifies this`stores, this`channel, this`invocations
      ensures Valid()
      ensures following <==> targetId !in old(stores[FOLLOWS])
      ensures stores == FollowToggled(old(stores), targetId, nowMs)
      ensures following <==> targetId in stores[FOLLOWS]
      ensures channel == old(channel) + [ChannelMessage(FOLLOW_UPDATED, contextName)]
      ensures forall l :: Invocations(l) == Count(old(invocations), l) + (if l in listeners then 1 else 0)
    {
      var existing := Get(stores, FOLLOWS, targetId);
      if existing.Some? {
        DeleteWellFormed(stores, FOLLOWS, targetId);
        stores := Delete(stores, FOLLOWS, targetId);
        following := false;
      } else {
        PutWellFormed(stores, FOLLOWS, FollowRec(Follow(targetId, nowMs)));
        stores := Put(stores, FOLLOWS, FollowRec(Follow(targetId, nowMs)));
        following := true;
      }
      Broadcast(FOLLOW_UPDATED);
    }

    /** Removes a favourite listing, else stores the listing itself; returns whether it is now a favourite. */
    method ToggleFavorite(listing: Listing) returns (favorite: bool)
      requires Valid()
      modifies this`stores, this`channel, this`invocations
      ensures Valid()
      ensures favorite <==> listing.id !in old(stores[FAVORITES])
      ensures stores == FavoriteToggled(old(stores), listing)
      ensures favorite <==> listing.id in stores[FAVORITES]
      ensures channel == old(channel) + [ChannelMessage(FAV_UPDATED, contextName)]
      ensures forall l :: Invocations(l) == Count(old(invocations), l) + (if l in listeners then 1 else 0)
    {
      var existing := Get(stores, FAVORITES, listing.id);
      if existing.Some? {
        DeleteWellFormed(stores, FAVORITES, listing.id);
        stores := Delete(stores, FAVORITES, listing.id);
        favorite := false;
      } else {
        PutWellFormed(stores, FAVORITES, ListingRec(listing));
        stores := Put(stores, FAVORITES, ListingRec(listing));
        favorite := true;
      }
      Broadcast(FAV_UPDATED);
    }

    /** Overwrites the user's wallet row `PENDING`, queues it, posts `WALLET_UPDATED`. */
    method UpdateBalance(userId: string, newBalance: real, nowMs: int, queueId: string)
      requires Valid()
      modifies this`stores, this`channel, this`invocations
      ensures Valid()
      ensures stores == Saved(old(stores), WALLET, WalletRow(userId, newBalance, nowMs), queueId, nowMs)
      ensures GetBalance(userId) == newBalance
      ensures channel == old(channel) + [ChannelMessage(WALLET_UPDATED, contextName)]
      ensures forall l :: Invocations(l) == Count(old(invocations), l) + (if l in listeners then 1 else 0)
    {
      var data := WalletRow(userId, newBalance, nowMs);
      PutAndQueue(WALLET, data, queueId, nowMs);
      Broadcast(WALLET_UPDATED);
    }

    /** Stored `PENDING`, queued, `TX_NEW` posted. */
    method SaveTransaction(tx: Transaction, queueId: string, nowMs: int)
      requires Valid()
      modifies this`stores, this`channel, this`invocations
      ensures Valid()
      ensures stores == Saved(old(stores), TRANSACTIONS, TxRow(tx), queueId, nowMs)
      ensures channel == old(channel) + [ChannelMessage(TX_NEW, contextName)]
      ensures forall l :: Invocations(l) == Count(old(invocations), l) + (if l in listeners then 1 else 0)
    {
      var data := TxRow(tx);
      PutAndQueue(TRANSACTIONS, data, queueId, nowMs);
      Broadcast(TX_NEW);
    }

    /** Stored `PENDING`, queued, `CHAT_NEW` posted. */
    method SaveChatSession(session: ChatSession, queueId: string, nowMs: int)
      requires Valid()
      modifies this`stores, this`channel, this`invocations
      ensures Valid()
      ensures stores == Saved(old(stores), CHATS, ChatRow(session), queueId, nowMs)
      ensures channel == old(channel) + [ChannelMessage(CHAT_NEW, contextName)]
      ensures forall l :: Invocations(l) == Count(old(invocations), l) + (if l in listeners then 1 else 0)
    {
      var data := ChatRow(session);
      PutAndQueue(CHATS, data, queueId, nowMs);
      Broadcast(CHAT_NEW);
    }

    /**
     * Stored under `message.id`, or `fallbackId` (`msg_<now>`) when that is
     * empty, and tagged with `chatId`; `MSG_NEW` posted; not queued.
     */
    method SaveMessage(chatId: string, message: Message, fallbackId: string)
      requires Valid()
      modifies this`stores, this`channel, this`invocations
      ensures Valid()
      ensures var id := if message.id != "" then message.id else fallbackId;
        stores == Put(old(stores), MESSAGES, MessageRec(message.(id := id, chatId := chatId)))
      ensures channel == old(channel) + [ChannelMessage(MSG_NEW, contextName)]
      ensures forall l :: Invocations(l) == Count(old(invocations), l) + (if l in listeners then 1 else 0)
    {
      var id := if message.id != "" then message.id else fallbackId;
      var secured := MessageRec(message.(id := id, chatId := chatId));
      PutWellFormed(stores, MESSAGES, secured);
      stores := Put(stores, MESSAGES, secured);
      Broadcast(MSG_NEW);
    }

    /** Stores `{ id: key, value }`, posts `METADATA_UPDATED`; not queued. */
    method SetMetadata(key: string, value: MetaValue)
      requires Valid()
      modifies this`stores, this`channel, this`invocations
      ensures Valid()
      ensures stores == Put(old(stores), METADATA, MetaRec(MetaEntry(key, value)))
      ensures Falsy(value) ==> GetMetadata(key) == None
      ensures !Falsy(value) ==> GetMetadata(key) == Some(value)
      ensures channel == old(channel) + [ChannelMessage(METADATA_UPDATED, contextName)]
      ensures forall l :: Invocations(l) == Count(old(invocations), l) + (if l in listeners then 1 else 0)
    {
      PutWellFormed(stores, METADATA, MetaRec(MetaEntry(key, value)));
      stores := Put(stores, METADATA, MetaRec(MetaEntry(key, value)));
      Broadcast(METADATA_UPDATED);
    }

    /**
     * Adds one to a stored listing's view count (a missing count reads as 0).
     * Nothing is queued and nothing is posted; an unknown id changes nothing.
     */
    method IncrementViews(id: string)
      requires Valid()
      modifies this`stores
      ensures Valid()
      ensures id in old(stores[LISTINGS]) && old(stores[LISTINGS][id]).ListingRec? ==>
        stores == Put(old(stores), LISTINGS, ListingRec(BumpViews(old(stores[LISTINGS][id]).listing)))
      ensures stores[SYNC_QUEUE] == old(stores[SYNC_QUEUE])
      ensures !(id in old(stores[LISTINGS]) && old(stores[LISTINGS][id]).ListingRec?) ==> stores == old(stores)
    {
      var data := Get(stores, LISTINGS, id);
      if data.Some? && data.value.ListingRec? {
        var bumped := ListingRec(BumpViews(data.value.listing));
        assert Fits(LISTINGS, id, data.value);
        PutWellFormed(stores, LISTINGS, bumped);
        stores := Put(stores, LISTINGS, bumped);
      }
    }

    // ---- reads ----

    /** `getAll()` on one store: every stored record exactly once, in no particular order. */
    method GetAll(s: StoreName) returns (rs: seq<Record>)
      requires Valid()
      ensures forall r :: multiset(rs)[r] == if r in stores[s].Values then 1 else 0
    {
      var m := stores[s];
      var todo := m.Keys;
      rs := [];
      while todo != {}
        invariant todo <= m.Keys
        invariant forall r :: multiset(rs)[r] == if r in ValuesAt(m, m.Keys - todo) then 1 else 0
        decreases todo
      {
        var k :| k in todo;
        forall j | j in m.Keys - todo ensures m[j] != m[k] {
          assert Fits(s, j, m[j]) && Fits(s, k, m[k]);
        }
        assert ValuesAt(m, m.Keys - (todo - {k})) == ValuesAt(m, m.Keys - todo) + {m[k]};
        rs := rs + [m[k]];
        todo := todo - {k};
      }
      assert ValuesAt(m, m.Keys - todo) == m.Values;
    }

    /** All listings, newest `createdAt` first. */
    method GetAllListings() returns (r: seq<Listing>)
      requires Valid()
      ensures forall l :: multiset(r)[l] == if ListingRec(l) in stores[LISTINGS].Values then 1 else 0
      ensures SortedBy(r, NewerListingFirst)
    {
      var rs := GetAll(LISTINGS);
      var ls := Select(rs, AsListing);
      forall l ensures multiset(ls)[l] == multiset(rs)[ListingRec(l)] {
        SelectCount(rs, AsListing, l, ListingRec(l));
      }
      NewerListingFirstIsPreorder();
      SortBySorted(ls, NewerListingFirst);
      r := SortBy(ls, NewerListingFirst);
    }

    /** The user's transactions, newest `timestamp` first. */
    method GetTransactions(userId: string) returns (r: seq<Transaction>)
      requires Valid()
      ensures forall t :: multiset(r)[t] == if TxRec(t) in stores[TRANSACTIONS].Values && t.userId == userId then 1 else 0
      ensures SortedBy(r, NewerTxFirst)
    {
      var rs := GetAll(TRANSACTIONS);
      var txs := Select(rs, AsTx);
      forall t ensures multiset(txs)[t] == multiset(rs)[TxRec(t)] {
        SelectCount(rs, AsTx, t, TxRec(t));
      }
      var mine := OfUser(txs, userId);
      NewerTxFirstIsPreorder();
      SortBySorted(mine, NewerTxFirst);
      r := SortBy(mine, NewerTxFirst);
    }

    /** The chat's messages by ascending id. */
    method GetMessages(chatId: string) returns (r: seq<Message>)
      requires Valid()
      ensures forall m :: multiset(r)[m] == if MessageRec(m) in stores[MESSAGES].Values && m.chatId == chatId then 1 else 0
      ensures SortedBy(r, MessageIdOrder)
    {
      var rs := GetAll(MESSAGES);
      var msgs := Select(rs, AsMessage);
      forall m ensures multiset(msgs)[m] == multiset(rs)[MessageRec(m)] {
        SelectCount(rs, AsMessage, m, MessageRec(m));
      }
      var mine := OfChat(msgs, chatId);
      MessageIdOrderIsPreorder();
      SortBySorted(mine, MessageIdOrder);
      r := SortBy(mine, MessageIdOrder);
    }

    method GetAllClips() returns (r: seq<Clip>)
      requires Valid()
      ensures forall c :: multiset(r)[c] == if ClipRec(c) in stores[CLIPS].Values then 1 else 0
    {
      var rs := GetAll(CLIPS);
      r := Select(rs, AsClip);
      forall c ensures multiset(r)[c] == multiset(rs)[ClipRec(c)] {
        SelectCount(rs, AsClip, c, ClipRec(c));
      }
    }

    method GetStories() returns (r: seq<Story>)
      requires Valid()
      ensures forall st :: multiset(r)[st] == if StoryRec(st) in stores[STORIES].Values then 1 else 0
    {
      var rs := GetAll(STORIES);
      r := Select(rs, AsStory);
      forall st ensures multiset(r)[st] == multiset(rs)[StoryRec(st)] {
        SelectCount(rs, AsStory, st, StoryRec(st));
      }
    }

    method GetFavorites() returns (r: seq<Listing>)
      requires Valid()
      ensures forall l :: multiset(r)[l] == if ListingRec(l) in stores[FAVORITES].Values then 1 else 0
    {
      var rs := GetAll(FAVORITES);
      r := Select(rs, AsListing);
      forall l ensures multiset(r)[l] == multiset(rs)[ListingRec(l)] {
        SelectCount(rs, AsListing, l, ListingRec(l));
      }
    }

    method GetAllChatSessions() returns (r: seq<ChatSession>)
      requires Valid()
      ensures forall c :: multiset(r)[c] == if ChatRec(c) in stores[CHATS].Values then 1 else 0
    {
      var rs := GetAll(CHATS);
      r := Select(rs, AsChat);
      forall c ensures multiset(r)[c] == multiset(rs)[ChatRec(c)] {
        SelectCount(rs, AsChat, c, ChatRec(c));
      }
    }

    /** The followed ids: each followed id exactly once. */
    method GetFollows() returns (r: seq<string>)
      requires Valid()
      ensures forall id :: multiset(r)[id] == if id in stores[FOLLOWS] then 1 else 0
    {
      var rs := GetAll(FOLLOWS);
      r := Select(rs, AsFollowId);
      forall id ensures multiset(r)[id] == if id in stores[FOLLOWS] then 1 else 0 {
        FollowIdsOnce(stores[FOLLOWS], rs, id);
      }
    }

    /** A stored handshake of the chat, if any: the order `getAll` returns them in is not modelled. */
    method GetHandshakeByChat(chatId: string) returns (r: Option<Handshake>)
      requires Valid()
      ensures r.Some? ==> HandshakeRec(r.value) in stores[HANDSHAKES].Values && r.value.chatId == chatId
      ensures r.None? ==> forall h :: HandshakeRec(h) in stores[HANDSHAKES].Values ==> h.chatId != chatId
    {
      var rs := GetAll(HANDSHAKES);
      var hs := Select(rs, AsHandshake);
      forall h ensures multiset(hs)[h] == multiset(rs)[HandshakeRec(h)] {
        SelectCount(rs, AsHandshake, h, HandshakeRec(h));
      }
      r := FindByChat(hs, chatId);
    }

    /** `req.result?.balance || 0`: the stored balance, or 0 for a user without a wallet row. */
    function GetBalance(userId: string): (b: real)
      requires Valid()
      reads this`stores
      ensures userId !in stores[WALLET] ==> b == 0.0
      ensures userId in stores[WALLET] ==>
        stores[WALLET][userId].WalletRec? && stores[WALLET][userId].wallet.userId == userId && b == stores[WALLET][userId].wallet.balance
    {
      assert userId in stores[WALLET] ==> Fits(WALLET, userId, stores[WALLET][userId]);
      BalanceIn(stores, userId)
    }

    /** `req.result || null` on the listings store. */
    function GetListingById(id: string): (r: Option<Listing>)
      requires Valid()
      reads this`stores
      ensures r.Some? <==> id in stores[LISTINGS]
      ensures r.Some? ==> stores[LISTINGS][id] == ListingRec(r.value) && r.value.id == id
    {
      assert id in stores[LISTINGS] ==> Fits(LISTINGS, id, stores[LISTINGS][id]);
      ListingIn(stores, id)
    }

    /** `req.result || null` on the chats store. */
    function GetChatSession(id: string): (r: Option<ChatSession>)
      requires Valid()
      reads this`stores
      ensures r.Some? <==> id in stores[CHATS]
      ensures r.Some? ==> stores[CHATS][id] == ChatRec(r.value) && r.value.id == id
    {
      assert id in stores[CHATS] ==> Fits(CHATS, id, stores[CHATS][id]);
      if id in stores[CHATS] then Some(stores[CHATS][id].chat) else None
    }

    /** `req.result?.value || null`: null for a missing key and for a stored falsy value. */
    function GetMetadata(key: string): (r: Option<MetaValue>)
      requires Valid()
      reads this`stores
      ensures key in stores[METADATA] ==> stores[METADATA][key].MetaRec? && stores[METADATA][key].meta.id == key
      ensures r.Some? <==> key in stores[METADATA] && !Falsy(stores[METADATA][key].meta.value)
      ensures r.Some? ==> r.value == stores[METADATA][key].meta.value
    {
      assert key in stores[METADATA] ==> Fits(METADATA, key, stores[METADATA][key]);
      MetadataIn(stores, key)
    }
  }
}
