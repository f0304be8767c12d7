/**
 * The records kept by the marketplace's local database: one datatype per
 * entity, the named object stores, each store's key path, and the
 * `Record` union that an object store holds.
 */
module Records {
  import opened Wrappers

  datatype SyncStatus = Synced | Pending | Offline | SyncError

  datatype ListingType = BuySell | Services | Jobs | Property | Promotion

  /** A listing price: a number, or the string `'NEGOTIABLE'`. */
  datatype Price = Amount(value: real) | Negotiable

  /** `views` is `None` when the stored object has no (or a falsy) view count. */
  datatype Listing = Listing(
    id: string, ownerId: string, listingType: ListingType, title: string,
    description: string, price: Price, location: string, createdAt: string,
    isBoosted: bool, views: Option<int>, syncStatus: Option<SyncStatus>)

  datatype ChatSession = ChatSession(
    id: string, partnerId: string, lastMessage: string, lastTimestamp: string,
    syncStatus: Option<SyncStatus>)

  datatype Message = Message(id: string, chatId: string, role: string, text: string, timestamp: string)

  /** A row of `user_data`, keyed by `userId`. */
  datatype Profile = Profile(userId: string, name: string, syncStatus: Option<SyncStatus>)

  datatype TxType = Deposit | Withdrawal | Payment | Boost | HandshakeEscrow

  datatype TxStatus = TxPending | TxSuccess | TxFailed

  datatype Provider = Mtn | Airtel | Wallet

  datatype Transaction = Transaction(
    id: string, userId: string, amount: real, txType: TxType, status: TxStatus,
    provider: Provider, description: string, timestamp: string,
    syncStatus: Option<SyncStatus>)

  /** A wallet row, keyed by `userId`. */
  datatype WalletEntry = WalletEntry(userId: string, balance: real, lastUpdated: int, syncStatus: Option<SyncStatus>)

  datatype Clip = Clip(
    id: string, ownerId: string, videoUrl: string, caption: string, likes: int,
    views: int, createdAt: string, syncStatus: Option<SyncStatus>)

  datatype Story = Story(id: string, ownerId: string, imageUrl: string, createdAt: string)

  datatype Follow = Follow(id: string, timestamp: int)

  /** Metadata values: the revenue counters are numbers, the verification flags booleans. */
  datatype MetaValue = Num(n: real) | Flag(b: bool)

  datatype MetaEntry = MetaEntry(id: string, value: MetaValue)

  datatype HandshakeStatus = HsPending | HsConfirmed | HsCompleted

  datatype Handshake = Handshake(
    id: string, chatId: string, sellerId: string, buyerId: string, listingId: string,
    agreedPrice: real, status: HandshakeStatus, timestamp: string,
    syncStatus: Option<SyncStatus>)

  datatype SyncAction = PutAction | DeleteAction

  /** The object stores of the database (the `STORES` table). */
  datatype StoreName =
    | LISTINGS | CHATS | MESSAGES | USER_DATA | TRANSACTIONS | WALLET | FAVORITES
    | METADATA | CLIPS | STORIES | FOLLOWS | HANDSHAKES | SYNC_QUEUE

  /** What one object store holds: a record of one of the entities above. */
  datatype Record =
    | ListingRec(listing: Listing)
    | ChatRec(chat: ChatSession)
    | MessageRec(message: Message)
    | ProfileRec(profile: Profile)
    | TxRec(tx: Transaction)
    | WalletRec(wallet: WalletEntry)
    | ClipRec(clip: Clip)
    | StoryRec(story: Story)
    | FollowRec(follow: Follow)
    | MetaRec(meta: MetaEntry)
    | HandshakeRec(handshake: Handshake)
    | QueueRec(item: SyncItem)

  /** An outbox entry: a copy of the record as it was written, and where it went. */
  datatype SyncItem = SyncItem(id: string, store: StoreName, data: Record, action: SyncAction, timestamp: int)

  const AllStores: set<StoreName> :=
    {LISTINGS, CHATS, MESSAGES, USER_DATA, TRANSACTIONS, WALLET, FAVORITES,
     METADATA, CLIPS, STORIES, FOLLOWS, HANDSHAKES, SYNC_QUEUE}

  lemma AllStoresComplete()
    ensures forall s: StoreName :: s in AllStores
  {
    forall s: StoreName ensures s in AllStores {
      match s
      case LISTINGS => case CHATS => case MESSAGES => case USER_DATA =>
      case TRANSACTIONS => case WALLET => case FAVORITES => case METADATA =>
      case CLIPS => case STORIES => case FOLLOWS => case HANDSHAKES => case SYNC_QUEUE =>
    }
  }

  /** The store's name in the database. */
  function Name(s: StoreName): string
  {
    match s
    case LISTINGS => "listings"
    case CHATS => "chats"
    case MESSAGES => "messages"
    case USER_DATA => "user_data"
    case TRANSACTIONS => "transactions"
    case WALLET => "wallet"
    case FAVORITES => "favorites"
    case METADATA => "metadata"
    case CLIPS => "clips"
    case STORIES => "stories"
    case FOLLOWS => "follows"
    case HANDSHAKES => "handshakes"
    case SYNC_QUEUE => "sync_queue"
  }

  datatype KeyPath = IdPath | UserIdPath

  /** The key path a store is created with: `userId` for `wallet` and `user_data`, `id` otherwise. */
  function KeyPathOf(s: StoreName): (kp: KeyPath)
    ensures kp == UserIdPath <==> s == WALLET || s == USER_DATA
  {
    match s
    case WALLET => UserIdPath
    case USER_DATA => UserIdPath
    case _ => IdPath
  }

  /** The record's `id` property, if it has one. */
  function IdOf(r: Record): Option<string>
  {
    match r
    case ListingRec(l) => Some(l.id)
    case ChatRec(c) => Some(c.id)
    case MessageRec(m) => Some(m.id)
    case ProfileRec(_) => None
    case TxRec(t) => Some(t.id)
    case WalletRec(_) => None
    case ClipRec(c) => Some(c.id)
    case StoryRec(s) => Some(s.id)
    case FollowRec(f) => Some(f.id)
    case MetaRec(m) => Some(m.id)
    case HandshakeRec(h) => Some(h.id)
    case QueueRec(q) => Some(q.id)
  }

  /** The record's `userId` property, if it has one. */
  function UserIdOf(r: Record): Option<string>
  {
    match r
    case ProfileRec(p) => Some(p.userId)
    case TxRec(t) => Some(t.userId)
    case WalletRec(w) => Some(w.userId)
    case _ => None
  }

  function KeyAt(kp: KeyPath, r: Record): Option<string>
  {
    if kp == IdPath then IdOf(r) else UserIdOf(r)
  }

  /** The kind of record the application keeps in each store. */
  predicate KindFits(s: StoreName, r: Record)
  {
    match s
    case LISTINGS => r.ListingRec?
    case FAVORITES => r.ListingRec?
    case CHATS => r.ChatRec?
    case MESSAGES => r.MessageRec?
    case USER_DATA => r.ProfileRec?
    case TRANSACTIONS => r.TxRec?
    case WALLET => r.WalletRec?
    case METADATA => r.MetaRec?
    case CLIPS => r.ClipRec?
    case STORIES => r.StoryRec?
    case FOLLOWS => r.FollowRec?
    case HANDSHAKES => r.HandshakeRec?
    case SYNC_QUEUE => r.QueueRec?
  }

  /** The key a record of the right kind is stored under: the value at the store's key path. */
  function PrimaryKey(s: StoreName, r: Record): (k: string)
    requires KindFits(s, r)
    ensures KeyAt(KeyPathOf(s), r) == Some(k)
  {
    KeyAt(KeyPathOf(s), r).value
  }

  /** A record sits in store `s` under key `k`. */
  predicate Fits(s: StoreName, k: string, r: Record)
  {
    KindFits(s, r) && PrimaryKey(s, r) == k
  }

  /** `data.id || data.userId`: the key the outbox drain looks the live record up by. */
  function LookupKey(data: Record): (k: Option<string>)
    ensures IdOf(data).Some? && IdOf(data).value != "" ==> k == IdOf(data)
    ensures (IdOf(data).None? || IdOf(data) == Some("")) ==> k == UserIdOf(data)
  {
    match IdOf(data)
    case Some(i) => if i != "" then Some(i) else UserIdOf(data)
    case None => UserIdOf(data)
  }

  /** The stores whose writes go through the outbox. */
  const SyncedStores: set<StoreName> := {LISTINGS, HANDSHAKES, CLIPS, WALLET, TRANSACTIONS, CHATS}

  /** The kinds whose type declares a `syncStatus` property. */
  predicate HasSyncStatus(r: Record)
  {
    r.ListingRec? || r.ChatRec? || r.ProfileRec? || r.TxRec? || r.WalletRec? || r.ClipRec? || r.HandshakeRec?
  }

  /** An outbox entry is stored under its own id. */
  lemma OutboxEntryKey(k: string, r: Record)
    requires Fits(SYNC_QUEUE, k, r)
    ensures r.QueueRec? && r.item.id == k
  {
  }

  /** Every record written through the outbox carries a sync status. */
  lemma SyncedStoresHaveStatus(s: StoreName, r: Record)
    requires s in SyncedStores && KindFits(s, r)
    ensures HasSyncStatus(r)
  {
  }

  function SyncStatusOf(r: Record): Option<SyncStatus>
  {
    match r
    case ListingRec(l) => l.syncStatus
    case ChatRec(c) => c.syncStatus
    case ProfileRec(p) => p.syncStatus
    case TxRec(t) => t.syncStatus
    case WalletRec(w) => w.syncStatus
    case ClipRec(c) => c.syncStatus
    case HandshakeRec(h) => h.syncStatus
    case _ => None
  }

  /** `record.syncStatus = 'SYNCED'`, for the kinds that carry a sync status. */
  function SetSynced(r: Record): (r': Record)
    ensures IdOf(r') == IdOf(r) && UserIdOf(r') == UserIdOf(r)
    ensures forall s :: KindFits(s, r') <==> KindFits(s, r)
    ensures SyncStatusOf(r) == Some(Synced) ==> r' == r
    ensures !HasSyncStatus(r) ==> r' == r
    ensures HasSyncStatus(r) ==> SyncStatusOf(r') == Some(Synced)
  {
    match r
    case ListingRec(l) => ListingRec(l.(syncStatus := Some(Synced)))
    case ChatRec(c) => ChatRec(c.(syncStatus := Some(Synced)))
    case ProfileRec(p) => ProfileRec(p.(syncStatus := Some(Synced)))
    case TxRec(t) => TxRec(t.(syncStatus := Some(Synced)))
    case WalletRec(w) => WalletRec(w.(syncStatus := Some(Synced)))
    case ClipRec(c) => ClipRec(c.(syncStatus := Some(Synced)))
    case HandshakeRec(h) => HandshakeRec(h.(syncStatus := Some(Synced)))
    case _ => r
  }

  /** Stamping twice is stamping once. */
  lemma SetSyncedIdempotent(r: Record)
    ensures SetSynced(SetSynced(r)) == SetSynced(r)
  {
  }

  /** A record sits in store `s` under key `k` and still does once stamped. */
  lemma SetSyncedFits(s: StoreName, k: string, r: Record)
    requires Fits(s, k, r)
    ensures Fits(s, k, SetSynced(r))
  {
  }
}
