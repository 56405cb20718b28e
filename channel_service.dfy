/** The channel service: verification of a channel by an elevated role, the
    per-user subscription and notification state of a channel with its
    subscriber counter, and the partial update of a channel's details. */
module ChannelService {
  import opened Common
  import opened JsNumber

  datatype Channel = Channel(
    tenantId: TenantId,
    userId: UserId,
    name: Field,
    description: Field,
    bannerImageLink: Field,
    imageLink: Field,
    isVerified: bool,
    subscribers: string,   // the counter, kept as a string and read with parseInt
    isActive: bool,
    lastUpdatedAt: Option<Timestamp>)

  /** The values a subscription document is looked up by: the channel, the
      tenant and the user. */
  datatype SubscriptionKey = SubscriptionKey(channelId: Id, tenantId: TenantId, userId: UserId)

  /** A subscription document. */
  datatype Subscription = Subscription(key: SubscriptionKey, subscribed: bool, notifyMe: bool)

  /** The two collections the service reads and writes. */
  datatype ChannelDb = ChannelDb(channels: map<Id, Channel>, subscriptions: seq<Subscription>)

  /** The response status of an operation and the collections after it. */
  datatype Outcome = Outcome(status: Status, db: ChannelDb)

  /** The body of an update request. */
  datatype ChannelInput = ChannelInput(
    name: Field, description: Field, bannerImageLink: Field, imageLink: Field)

  // ---------------------------------------------------------------------
  // Verification

  /** The user types that may verify or unverify a channel. */
  const VerifierRoles: set<string> := {"maxsuperuser", "superuser", "superadmin", "admin"}

  /** `toUpperCase` on one character, restricted to the characters whose
      upper case can be a letter of "YES" or "NO": the ASCII letters, and the
      long s (U+017F), whose upper case is 'S'. */
  function UpperChar(c: char): char {
    if 'a' <= c <= 'z' then (c as int - 32) as char
    else if c == '\U{017F}' then 'S'
    else c
  }

  function ToUpperCase(s: string): string {
    seq(|s|, i requires 0 <= i < |s| => UpperChar(s[i]))
  }

  /** Every string whose upper case is "YES", and every one whose upper case is "NO". */
  const YesSpellings: set<string> := {
    "yes", "yeS", "yEs", "yES", "Yes", "YeS", "YEs", "YES",
    "ye\U{017F}", "yE\U{017F}", "Ye\U{017F}", "YE\U{017F}"}
  const NoSpellings: set<string> := {"no", "nO", "No", "NO"}

  lemma UpperCharOf(c: char)
    ensures UpperChar(c) == 'Y' ==> c == 'y' || c == 'Y'
    ensures UpperChar(c) == 'E' ==> c == 'e' || c == 'E'
    ensures UpperChar(c) == 'S' ==> c == 's' || c == 'S' || c == '\U{017F}'
    ensures UpperChar(c) == 'N' ==> c == 'n' || c == 'N'
    ensures UpperChar(c) == 'O' ==> c == 'o' || c == 'O'
  {
  }

  /** The case-insensitive comparison of the verify instruction is exactly
      membership in the listed spellings. */
  lemma {:induction false} InstructionSpellings(s: string)
    ensures ToUpperCase(s) == "YES" <==> s in YesSpellings
    ensures ToUpperCase(s) == "NO" <==> s in NoSpellings
  {
    var u := ToUpperCase(s);
    if u == "YES" {
      assert |s| == 3 && u[0] == 'Y' && u[1] == 'E' && u[2] == 'S';
      UpperCharOf(s[0]);
      UpperCharOf(s[1]);
      UpperCharOf(s[2]);
      assert s == [s[0], s[1], s[2]];
    }
    if u == "NO" {
      assert |s| == 2 && u[0] == 'N' && u[1] == 'O';
      UpperCharOf(s[0]);
      UpperCharOf(s[1]);
      assert s == [s[0], s[1]];
    }
    if s in YesSpellings {
      assert u == "YES";
    }
    if s in NoSpellings {
      assert u == "NO";
    }
  }

  /** What `verifyChannel` decides before it looks the channel up. */
  datatype VerifyDecision = Reject(status: Status) | SetVerified(verified: bool)

  /** The instruction is upper-cased first, then the caller's role is
      checked, then the instruction must be YES or NO. An absent instruction
      makes the upper-casing throw before anything is looked up; nothing
      catches that, so no response is sent and nothing changes. `Reject(Error)`
      stands for that outcome. */
  function DecideVerification(userType: string, verify: Field): (d: VerifyDecision)
    ensures verify.None? ==> d == Reject(Error)
    ensures d == Reject(Unauthorized) <==> verify.Some? && userType !in VerifierRoles
    ensures d == Reject(FailedValidation) <==>
      verify.Some? && userType in VerifierRoles
      && verify.value !in YesSpellings && verify.value !in NoSpellings
    ensures d.SetVerified? ==> (d.verified <==> verify.value in YesSpellings)
  {
    match verify
    case None => Reject(Error)
    case Some(v) =>
      InstructionSpellings(v);
      var instruction := ToUpperCase(v);
      if userType !in VerifierRoles then Reject(Unauthorized)
      else if instruction != "YES" && instruction != "NO" then Reject(FailedValidation)
      else SetVerified(instruction == "YES")
  }

  /** `verifyChannel`: the channel is looked up by id alone. Only an
      elevated role with a YES or NO instruction for an existing channel
      changes anything, and then only that channel's verified flag and
      update time. */
  function VerifyChannelOutcome(db: ChannelDb, channelId: Id, userType: string, verify: Field, now: Timestamp)
    : (r: Outcome)
    ensures r.db.subscriptions == db.subscriptions
    ensures r.status != Success ==> r.db == db
    ensures r.status == Success <==>
      verify.Some? && userType in VerifierRoles && channelId in db.channels
      && (verify.value in YesSpellings || verify.value in NoSpellings)
    ensures r.status == Success ==>
      r.db.channels == db.channels[channelId := db.channels[channelId].(
        isVerified := verify.value in YesSpellings, lastUpdatedAt := Some(now))]
    ensures (verify.Some? && userType in VerifierRoles && channelId !in db.channels
      && (verify.value in YesSpellings || verify.value in NoSpellings)) ==> r.status == NotFound
  {
    match DecideVerification(userType, verify)
    case Reject(status) => Outcome(status, db)
    case SetVerified(verified) =>
      if channelId in db.channels then
        var c := db.channels[channelId];
        Outcome(Success, db.(channels := db.channels[channelId := c.(isVerified := verified, lastUpdatedAt := Some(now))]))
      else Outcome(NotFound, db)
  }

  // ---------------------------------------------------------------------
  // Subscriptions

  /** The first subscription document with the key, as `findOne` returns it. */
  function FindSubscription(subs: seq<Subscription>, key: SubscriptionKey): (r: Option<nat>)
    ensures r.Some? ==> r.value < |subs| && subs[r.value].key == key
    ensures r.Some? ==> forall j :: 0 <= j < r.value ==> subs[j].key != key
    ensures r.None? ==> forall j :: 0 <= j < |subs| ==> subs[j].key != key
  {
    if subs == [] then None
    else if subs[0].key == key then Some(0)
    else match FindSubscription(subs[1..], key)
      case None => None
      case Some(i) => Some(i + 1)
  }

  function Lookup(subs: seq<Subscription>, key: SubscriptionKey): Option<Subscription> {
    match FindSubscription(subs, key)
    case None => None
    case Some(i) => Some(subs[i])
  }

  /** At most one subscription document per (channel, tenant, user). */
  ghost predicate UniqueKeys(subs: seq<Subscription>) {
    forall i, j :: 0 <= i < |subs| && 0 <= j < |subs| && i != j ==> subs[i].key != subs[j].key
  }

  /** The number of documents with the key. */
  function CountKey(subs: seq<Subscription>, key: SubscriptionKey): nat {
    if subs == [] then 0
    else (if subs[0].key == key then 1 else 0) + CountKey(subs[1..], key)
  }

  lemma {:induction false} CountOfUnique(subs: seq<Subscription>, key: SubscriptionKey)
    requires UniqueKeys(subs)
    ensures CountKey(subs, key) == if Lookup(subs, key).Some? then 1 else 0
  {
    if subs != [] {
      assert UniqueKeys(subs[1..]) by {
        forall i, j | 0 <= i < |subs| - 1 && 0 <= j < |subs| - 1 && i != j
          ensures subs[1..][i].key != subs[1..][j].key
        {
          assert subs[1..][i] == subs[i + 1] && subs[1..][j] == subs[j + 1];
        }
      }
      CountOfUnique(subs[1..], key);
      if subs[0].key == key {
        assert forall j :: 0 <= j < |subs| - 1 ==> subs[1..][j] == subs[j + 1];
        assert Lookup(subs[1..], key).None?;
      }
    }
  }

  /** Lookups depend only on the keys, so rewriting a document's flags moves no lookup. */
  lemma {:induction false} FindByKeysOnly(a: seq<Subscription>, b: seq<Subscription>, key: SubscriptionKey)
    requires |a| == |b|
    requires forall i :: 0 <= i < |a| ==> a[i].key == b[i].key
    ensures FindSubscription(a, key) == FindSubscription(b, key)
  {
    if a != [] {
      FindByKeysOnly(a[1..], b[1..], key);
    }
  }

  /** Appending a document leaves every earlier match in place. */
  lemma {:induction false} FindAfterAppend(subs: seq<Subscription>, s: Subscription, key: SubscriptionKey)
    ensures FindSubscription(subs + [s], key) ==
      if FindSubscription(subs, key).Some? then FindSubscription(subs, key)
      else if s.key == key then Some(|subs|) else None
  {
    if subs != [] {
      assert (subs + [s])[1..] == subs[1..] + [s];
      FindAfterAppend(subs[1..], s, key);
    }
  }

  /** The document at index i is replaced by one with the same key. */
  lemma ReplaceAt(subs: seq<Subscription>, i: nat, s: Subscription)
    requires i < |subs| && s.key == subs[i].key
    requires FindSubscription(subs, s.key) == Some(i)
    ensures Lookup(subs[i := s], s.key) == Some(s)
    ensures forall k :: k != s.key ==> Lookup(subs[i := s], k) == Lookup(subs, k)
    ensures UniqueKeys(subs) ==> UniqueKeys(subs[i := s])
  {
    forall k ensures FindSubscription(subs[i := s], k) == FindSubscription(subs, k) {
      FindByKeysOnly(subs[i := s], subs, k);
    }
  }

  /** A document is appended whose key no document has. */
  lemma AppendNew(subs: seq<Subscription>, s: Subscription)
    requires Lookup(subs, s.key).None?
    ensures Lookup(subs + [s], s.key) == Some(s)
    ensures forall k :: k != s.key ==> Lookup(subs + [s], k) == Lookup(subs, k)
    ensures UniqueKeys(subs) ==> UniqueKeys(subs + [s])
  {
    forall k ensures FindSubscription(subs + [s], k) ==
      if FindSubscription(subs, k).Some? then FindSubscription(subs, k)
      else if s.key == k then Some(|subs|) else None
    {
      FindAfterAppend(subs, s, k);
    }
  }

  /** Subscribe: the key's document gets `subscribed = true`, or a new one is
      created with the schema's defaults (subscribed, not notified). */
  function SubscribeTable(subs: seq<Subscription>, key: SubscriptionKey): seq<Subscription> {
    match FindSubscription(subs, key)
    case Some(i) => subs[i := subs[i].(subscribed := true)]
    case None => subs + [Subscription(key, true, false)]
  }

  /** Unsubscribe: the key's document, if any, gets both flags cleared. */
  function UnsubscribeTable(subs: seq<Subscription>, key: SubscriptionKey): seq<Subscription> {
    match FindSubscription(subs, key)
    case Some(i) => subs[i := subs[i].(subscribed := false, notifyMe := false)]
    case None => subs
  }

  /** Notify: the key's document gets both flags set, or a new one is created
      with `notifyMe = true`. */
  function NotifyTable(subs: seq<Subscription>, key: SubscriptionKey): seq<Subscription> {
    match FindSubscription(subs, key)
    case Some(i) => subs[i := subs[i].(subscribed := true, notifyMe := true)]
    case None => subs + [Subscription(key, true, true)]
  }

  /** Unnotify: the key's document, if any, gets `notifyMe` cleared. */
  function UnnotifyTable(subs: seq<Subscription>, key: SubscriptionKey): seq<Subscription> {
    match FindSubscription(subs, key)
    case Some(i) => subs[i := subs[i].(notifyMe := false)]
    case None => subs
  }

  /** After a subscribe the key has a subscribed document; `notifyMe` is what
      it was (false for a new document); a document is created only when
      none had the key; no other key's document changes; at most one
      document per key stays true. */
  lemma SubscribeTableEffect(subs: seq<Subscription>, key: SubscriptionKey)
    ensures var r := SubscribeTable(subs, key);
      && Lookup(r, key).Some? && Lookup(r, key).value.subscribed
      && Lookup(r, key).value.notifyMe == (Lookup(subs, key).Some? && Lookup(subs, key).value.notifyMe)
      && |r| == |subs| + (if Lookup(subs, key).None? then 1 else 0)
      && (forall k :: k != key ==> Lookup(r, k) == Lookup(subs, k))
      && (UniqueKeys(subs) ==> UniqueKeys(r))
  {
    match FindSubscription(subs, key)
    case Some(i) => ReplaceAt(subs, i, subs[i].(subscribed := true));
    case None => AppendNew(subs, Subscription(key, true, false));
  }

  /** After an unsubscribe the key's document, if there is one, has both
      flags cleared; with none, nothing changes. */
  lemma UnsubscribeTableEffect(subs: seq<Subscription>, key: SubscriptionKey)
    ensures var r := UnsubscribeTable(subs, key);
      && (Lookup(subs, key).None? ==> r == subs)
      && (Lookup(subs, key).Some? ==>
            Lookup(r, key) == Some(Lookup(subs, key).value.(subscribed := false, notifyMe := false)))
      && |r| == |subs|
      && (forall k :: k != key ==> Lookup(r, k) == Lookup(subs, k))
      && (UniqueKeys(subs) ==> UniqueKeys(r))
  {
    match FindSubscription(subs, key)
    case Some(i) => ReplaceAt(subs, i, subs[i].(subscribed := false, notifyMe := false));
    case None =>
  }

  /** After a notify the key has a document with both flags set. */
  lemma NotifyTableEffect(subs: seq<Subscription>, key: SubscriptionKey)
    ensures var r := NotifyTable(subs, key);
      && Lookup(r, key).Some? && Lookup(r, key).value.subscribed && Lookup(r, key).value.notifyMe
      && |r| == |subs| + (if Lookup(subs, key).None? then 1 else 0)
      && (forall k :: k != key ==> Lookup(r, k) == Lookup(subs, k))
      && (UniqueKeys(subs) ==> UniqueKeys(r))
  {
    match FindSubscription(subs, key)
    case Some(i) => ReplaceAt(subs, i, subs[i].(subscribed := true, notifyMe := true));
    case None => AppendNew(subs, Subscription(key, true, true));
  }

  /** After an unnotify the key's document, if there is one, has `notifyMe`
      cleared and `subscribed` as it was; with none, nothing changes. */
  lemma UnnotifyTableEffect(subs: seq<Subscription>, key: SubscriptionKey)
    ensures var r := UnnotifyTable(subs, key);
      && (Lookup(subs, key).None? ==> r == subs)
      && (Lookup(subs, key).Some? ==>
            Lookup(r, key) == Some(Lookup(subs, key).value.(notifyMe := false)))
      && |r| == |subs|
      && (forall k :: k != key ==> Lookup(r, k) == Lookup(subs, k))
      && (UniqueKeys(subs) ==> UniqueKeys(r))
  {
    match FindSubscription(subs, key)
    case Some(i) => ReplaceAt(subs, i, subs[i].(notifyMe := false));
    case None =>
  }

  // ---------------------------------------------------------------------
  // The subscriber counter

  /** `parseInt(subscribers) ? parseInt(subscribers) + 1 : 1`, stored back:
      the new counter reads as one more than before, or as 1 when it read as
      NaN or 0. */
  function IncrementedCounter(counter: string): (r: string)
    ensures ParseInt(r) == Some(if ParsesTruthy(counter) then ParseInt(counter).value + 1 else 1)
  {
    var n := if ParsesTruthy(counter) then ParseInt(counter).value + 1 else 1;
    ParseIntRoundTrip(n);
    IntToString(n)
  }

  /** `parseInt(subscribers) ? (subscribers = parseInt(subscribers) - 1) : ""`:
      one is taken off a counter that reads as a non-zero number, and any
      other counter is left as it is; so a counter that reads as a
      non-negative number still does afterwards. */
  function DecrementedCounter(counter: string): (r: string)
    ensures ParsesTruthy(counter) ==> ParseInt(r) == Some(ParseInt(counter).value - 1)
    ensures !ParsesTruthy(counter) ==> r == counter
    ensures ParseInt(counter).Some? && ParseInt(counter).value >= 0 ==>
      ParseInt(r).Some? && ParseInt(r).value >= 0
  {
    if ParsesTruthy(counter) then
      var n := ParseInt(counter).value - 1;
      ParseIntRoundTrip(n);
      IntToString(n)
    else counter
  }

  /** Subscribing and then unsubscribing restores a counter that holds the
      numeral of a non-negative number. */
  lemma CounterRoundTrip(n: nat)
    ensures DecrementedCounter(IncrementedCounter(IntToString(n))) == IntToString(n)
  {
    ParseIntRoundTrip(n);
    ParseIntRoundTrip(n + 1);
  }

  // ---------------------------------------------------------------------
  // The four subscription operations over both collections

  /** `findOne({_id: channelId, tenantId})` finds the channel. */
  predicate HasChannel(db: ChannelDb, key: SubscriptionKey) {
    key.channelId in db.channels && db.channels[key.channelId].tenantId == key.tenantId
  }

  function WithCounter(db: ChannelDb, channelId: Id, counter: string): ChannelDb
    requires channelId in db.channels
  {
    db.(channels := db.channels[channelId := db.channels[channelId].(subscribers := counter)])
  }

  /** The channel documents after an operation on `id` differ from those
      before at most in that channel's counter. */
  predicate OnlyCounterChanged(before: map<Id, Channel>, after: map<Id, Channel>, id: Id) {
    && after.Keys == before.Keys
    && (forall c :: c in before && c != id ==> after[c] == before[c])
    && (id in before ==> after[id] == before[id].(subscribers := after[id].subscribers))
  }

  /** Setting a counter changes that channel's counter and nothing else. */
  lemma WithCounterChangesOnlyCounter(db: ChannelDb, channelId: Id, counter: string)
    requires channelId in db.channels
    ensures OnlyCounterChanged(db.channels, WithCounter(db, channelId, counter).channels, channelId)
    ensures WithCounter(db, channelId, counter).channels[channelId].subscribers == counter
    ensures WithCounter(db, channelId, counter).subscriptions == db.subscriptions
  {
  }

  /** `userChannelSubscription`: NOT_FOUND with nothing changed unless the
      tenant has the channel; otherwise the subscription documents change as
      `SubscribeTable` says, and the channel's counter goes up on every call,
      even for a user who was already subscribed. */
  function Subscribe(db: ChannelDb, key: SubscriptionKey): (o: Outcome)
    ensures o.status == (if HasChannel(db, key) then Success else NotFound)
    ensures o.status == NotFound ==> o.db == db
    ensures o.status == Success ==>
      && o.db.subscriptions == SubscribeTable(db.subscriptions, key)
      && OnlyCounterChanged(db.channels, o.db.channels, key.channelId)
      && var before := db.channels[key.channelId].subscribers;
         ParseInt(o.db.channels[key.channelId].subscribers)
           == Some(if ParsesTruthy(before) then ParseInt(before).value + 1 else 1)
  {
    if !HasChannel(db, key) then Outcome(NotFound, db)
    else
      var counter := IncrementedCounter(db.channels[key.channelId].subscribers);
      WithCounterChangesOnlyCounter(db, key.channelId, counter);
      Outcome(Success, WithCounter(db, key.channelId, counter).(subscriptions := SubscribeTable(db.subscriptions, key)))
  }

  /** `userChannelUnsubscription`: NOT_FOUND with nothing changed unless the
      tenant has the channel; SUCCESS with nothing changed when the user has
      no document; otherwise the document changes as `UnsubscribeTable`
      says, and the counter goes down when it reads as a non-zero number. */
  function Unsubscribe(db: ChannelDb, key: SubscriptionKey): (o: Outcome)
    ensures o.status == (if HasChannel(db, key) then Success else NotFound)
    ensures o.status == NotFound || Lookup(db.subscriptions, key).None? ==> o.db == db
    ensures o.status == Success && Lookup(db.subscriptions, key).Some? ==>
      && o.db.subscriptions == UnsubscribeTable(db.subscriptions, key)
      && OnlyCounterChanged(db.channels, o.db.channels, key.channelId)
      && var before := db.channels[key.channelId].subscribers;
         && (ParsesTruthy(before) ==>
               ParseInt(o.db.channels[key.channelId].subscribers) == Some(ParseInt(before).value - 1))
         && (!ParsesTruthy(before) ==> o.db.channels[key.channelId].subscribers == before)
  {
    if !HasChannel(db, key) then Outcome(NotFound, db)
    else if Lookup(db.subscriptions, key).None? then Outcome(Success, db)
    else
      var counter := DecrementedCounter(db.channels[key.channelId].subscribers);
      WithCounterChangesOnlyCounter(db, key.channelId, counter);
      Outcome(Success, WithCounter(db, key.channelId, counter).(subscriptions := UnsubscribeTable(db.subscriptions, key)))
  }

  /** `userChannelNotify`: NOT_FOUND with nothing changed unless the tenant
      has the channel; otherwise the documents change as `NotifyTable` says.
      No channel document, and so no counter, is ever touched. */
  function Notify(db: ChannelDb, key: SubscriptionKey): (o: Outcome)
    ensures o.status == (if HasChannel(db, key) then Success else NotFound)
    ensures o.db.channels == db.channels
    ensures o.db.subscriptions == if o.status == Success then NotifyTable(db.subscriptions, key) else db.subscriptions
  {
    if !HasChannel(db, key) then Outcome(NotFound, db)
    else Outcome(Success, db.(subscriptions := NotifyTable(db.subscriptions, key)))
  }

  /** `userChannelUnnotify`: NOT_FOUND with nothing changed unless the tenant
      has the channel; otherwise the documents change as `UnnotifyTable`
      says. No channel document, and so no counter, is ever touched. */
  function Unnotify(db: ChannelDb, key: SubscriptionKey): (o: Outcome)
    ensures o.status == (if HasChannel(db, key) then Success else NotFound)
    ensures o.db.channels == db.channels
    ensures o.db.subscriptions == if o.status == Success then UnnotifyTable(db.subscriptions, key) else db.subscriptions
  {
    if !HasChannel(db, key) then Outcome(NotFound, db)
    else Outcome(Success, db.(subscriptions := UnnotifyTable(db.subscriptions, key)))
  }

  /** Every operation on a channel the tenant does not have answers NOT_FOUND
      and changes nothing; every other call succeeds. */
  lemma MissingChannelChangesNothing(db: ChannelDb, key: SubscriptionKey)
    ensures !HasChannel(db, key) ==>
      && Subscribe(db, key) == Outcome(NotFound, db)
      && Unsubscribe(db, key) == Outcome(NotFound, db)
      && Notify(db, key) == Outcome(NotFound, db)
      && Unnotify(db, key) == Outcome(NotFound, db)
    ensures HasChannel(db, key) ==>
      && Subscribe(db, key).status == Success
      && Unsubscribe(db, key).status == Success
      && Notify(db, key).status == Success
      && Unnotify(db, key).status == Success
  {
  }

  /** A subscribe on a channel whose counter holds the numeral of n leaves
      the numeral of n + 1 (a counter of "0" reads as falsy and restarts at 1). */
  lemma SubscribeCounter(db: ChannelDb, key: SubscriptionKey, n: nat)
    requires HasChannel(db, key)
    requires db.channels[key.channelId].subscribers == IntToString(n)
    ensures Subscribe(db, key).db.channels ==
      db.channels[key.channelId := db.channels[key.channelId].(subscribers := IntToString(n + 1))]
    ensures Subscribe(db, key).db.subscriptions == SubscribeTable(db.subscriptions, key)
  {
    ParseIntRoundTrip(n);
    var counter := IncrementedCounter(IntToString(n));
    assert counter == IntToString(n + 1);
    assert Subscribe(db, key).db == WithCounter(db, key.channelId, counter).(subscriptions := SubscribeTable(db.subscriptions, key));
  }

  /** An unsubscribe by a user who has a document, on a channel whose counter
      holds the numeral of n + 1, leaves the numeral of n. */
  lemma UnsubscribeCounter(db: ChannelDb, key: SubscriptionKey, n: nat)
    requires HasChannel(db, key) && Lookup(db.subscriptions, key).Some?
    requires db.channels[key.channelId].subscribers == IntToString(n + 1)
    ensures Unsubscribe(db, key).db.channels ==
      db.channels[key.channelId := db.channels[key.channelId].(subscribers := IntToString(n))]
    ensures Unsubscribe(db, key).db.subscriptions == UnsubscribeTable(db.subscriptions, key)
  {
    CounterRoundTrip(n);
    ParseIntRoundTrip(n + 1);
    var counter := DecrementedCounter(IntToString(n + 1));
    assert counter == IntToString(n);
    assert Unsubscribe(db, key).db == WithCounter(db, key.channelId, counter).(subscriptions := UnsubscribeTable(db.subscriptions, key));
  }

  /** Putting back the counter a channel had restores the channel documents. */
  lemma RestoreCounter(channels: map<Id, Channel>, id: Id, before: string, after: string)
    requires id in channels && channels[id].subscribers == before
    ensures var m := channels[id := channels[id].(subscribers := after)];
      m[id := m[id].(subscribers := before)] == channels
  {
    var m := channels[id := channels[id].(subscribers := after)];
    assert m[id].(subscribers := before) == channels[id];
  }

  /** Subscribe, unsubscribe, subscribe again on the documents alone: one
      document for the user, subscribed, without notifications. */
  lemma SubscribeUnsubscribeSubscribeTable(subs: seq<Subscription>, key: SubscriptionKey)
    requires UniqueKeys(subs)
    ensures var r := SubscribeTable(UnsubscribeTable(SubscribeTable(subs, key), key), key);
      && CountKey(r, key) == 1
      && Lookup(r, key).Some? && Lookup(r, key).value.subscribed && !Lookup(r, key).value.notifyMe
  {
    var s1 := SubscribeTable(subs, key);
    SubscribeTableEffect(subs, key);
    var s2 := UnsubscribeTable(s1, key);
    UnsubscribeTableEffect(s1, key);
    var s3 := SubscribeTable(s2, key);
    SubscribeTableEffect(s2, key);
    CountOfUnique(s3, key);
  }

  /** Subscribe, unsubscribe, subscribe again: the channel's counter, holding
      the numeral of a non-negative number, ends where the first subscribe
      left it, and the user has exactly one document, subscribed without
      notifications. */
  lemma {:induction false} SubscribeUnsubscribeSubscribe(db: ChannelDb, key: SubscriptionKey, n: nat)
    requires HasChannel(db, key) && UniqueKeys(db.subscriptions)
    requires db.channels[key.channelId].subscribers == IntToString(n)
    ensures var db1 := Subscribe(db, key).db;
      var db2 := Unsubscribe(db1, key).db;
      var db3 := Subscribe(db2, key).db;
      && db2.channels == db.channels
      && db3.channels == db1.channels
      && CountKey(db3.subscriptions, key) == 1
      && Lookup(db3.subscriptions, key).Some?
      && Lookup(db3.subscriptions, key).value.subscribed
      && !Lookup(db3.subscriptions, key).value.notifyMe
  {
    var db1 := Subscribe(db, key).db;
    SubscribeCounter(db, key, n);
    SubscribeTableEffect(db.subscriptions, key);
    var db2 := Unsubscribe(db1, key).db;
    UnsubscribeCounter(db1, key, n);
    RestoreCounter(db.channels, key.channelId, IntToString(n), IntToString(n + 1));
    SubscribeCounter(db2, key, n);
    SubscribeUnsubscribeSubscribeTable(db.subscriptions, key);
  }

  // ---------------------------------------------------------------------
  // Details update and the user-channel listing gate

  /** `updateChannelData` on a found channel: each detail is overwritten only
      by a truthy value; the verification flag and the counter stay. */
  function UpdatedChannel(c: Channel, dto: ChannelInput, now: Timestamp): (r: Channel)
    ensures r.isVerified == c.isVerified && r.subscribers == c.subscribers && r.isActive == c.isActive
    ensures r.tenantId == c.tenantId && r.userId == c.userId
    ensures r.name == (if Truthy(dto.name) then dto.name else c.name)
    ensures r.description == (if Truthy(dto.description) then dto.description else c.description)
    ensures r.bannerImageLink == (if Truthy(dto.bannerImageLink) then dto.bannerImageLink else c.bannerImageLink)
    ensures r.imageLink == (if Truthy(dto.imageLink) then dto.imageLink else c.imageLink)
    ensures r.lastUpdatedAt == Some(now)
  {
    c.(name := Overwrite(c.name, dto.name),
       description := Overwrite(c.description, dto.description),
       bannerImageLink := Overwrite(c.bannerImageLink, dto.bannerImageLink),
       imageLink := Overwrite(c.imageLink, dto.imageLink),
       lastUpdatedAt := Some(now))
  }

  /** `findOne({_id, tenantId, userId})`: the caller owns the channel in the tenant. */
  predicate Owns(channels: map<Id, Channel>, id: Id, tenantId: TenantId, userId: UserId) {
    id in channels && channels[id].tenantId == tenantId && channels[id].userId == userId
  }

  /** `listUserChannel`: the listing goes ahead (None) only when the `userId`
      query parameter names the caller; otherwise the answer is NOT_FOUND. */
  function ListUserChannelGate(userIdQuery: Field, userId: UserId): (r: Option<Status>)
    ensures r.None? <==> userIdQuery == Some(userId)
    ensures r.Some? ==> r.value == NotFound
  {
    if userIdQuery == Some(userId) then None else Some(NotFound)
  }

  // ---------------------------------------------------------------------
  // The service over its collections

  class ChannelStore {
    var channels: map<Id, Channel>
    var subscriptions: seq<Subscription>

    function Db(): ChannelDb
      reads this
    {
      ChannelDb(channels, subscriptions)
    }

    ghost predicate Valid()
      reads this
    {
      UniqueKeys(subscriptions)
    }

    constructor (channels: map<Id, Channel>)
      ensures Valid() && Db() == ChannelDb(channels, [])
    {
      this.channels := channels;
      subscriptions := [];
    }

    method VerifyChannel(channelId: Id, userType: string, verify: Field, now: Timestamp) returns (status: Status)
      requires Valid()
      modifies this
      ensures Valid()
      ensures Outcome(status, Db()) == VerifyChannelOutcome(old(Db()), channelId, userType, verify, now)
    {
      if verify.None? {
        // the upper-casing throws here and no response is sent
        return Error;
      }
      var instruction := ToUpperCase(verify.value);
      if userType in VerifierRoles {
        if instruction == "YES" || instruction == "NO" {
          if channelId in channels {
            var existing := channels[channelId];
            existing := existing.(isVerified := instruction == "YES");
            existing := existing.(lastUpdatedAt := Some(now));
            channels := channels[channelId := existing];
            status := Success;
          } else {
            status := NotFound;
          }
        } else {
          status := FailedValidation;
        }
      } else {
        status := Unauthorized;
      }
    }

    method UpdateChannelData(id: Id, tenantId: TenantId, userId: UserId, dto: ChannelInput, now: Timestamp)
      returns (status: Status)
      requires Valid()
      modifies this
      ensures Valid() && subscriptions == old(subscriptions)
      ensures status == (if Owns(old(channels), id, tenantId, userId) then Success else NotFound)
      ensures status == Success ==> channels == old(channels)[id := UpdatedChannel(old(channels)[id], dto, now)]
      ensures status == NotFound ==> channels == old(channels)
    {
      if id in channels && channels[id].tenantId == tenantId && channels[id].userId == userId {
        var existing := channels[id];
        if Truthy(dto.name) { existing := existing.(name := dto.name); }
        if Truthy(dto.description) { existing := existing.(description := dto.description); }
        if Truthy(dto.bannerImageLink) { existing := existing.(bannerImageLink := dto.bannerImageLink); }
        if Truthy(dto.imageLink) { existing := existing.(imageLink := dto.imageLink); }
        existing := existing.(lastUpdatedAt := Some(now));
        channels := channels[id := existing];
        status := Success;
      } else {
        status := NotFound;
      }
    }

    method UserChannelSubscription(channelId: Id, tenantId: TenantId, userId: UserId)
      returns (status: Status)
      requires Valid()
      modifies this
      ensures Valid()
      ensures Outcome(status, Db()) == Subscribe(old(Db()), SubscriptionKey(channelId, tenantId, userId))
    {
      var key := SubscriptionKey(channelId, tenantId, userId);
      if !(channelId in channels && channels[channelId].tenantId == tenantId) {
        return NotFound;
      }
      SubscribeTableEffect(subscriptions, key);
      var existing := FindSubscription(subscriptions, key);
      if existing.Some? {
        var i := existing.value;
        subscriptions := subscriptions[i := subscriptions[i].(subscribed := true)];
      } else {
        subscriptions := subscriptions + [Subscription(key, true, false)];
      }
      var channel := channels[channelId];
      var parsed := ParseInt(channel.subscribers);
      channel := channel.(subscribers := if parsed.Some? && parsed.value != 0 then IntToString(parsed.value + 1) else IntToString(1));
      channels := channels[channelId := channel];
      status := Success;
    }

    method UserChannelUnsubscription(channelId: Id, tenantId: TenantId, userId: UserId)
      returns (status: Status)
      requires Valid()
      modifies this
      ensures Valid()
      ensures Outcome(status, Db()) == Unsubscribe(old(Db()), SubscriptionKey(channelId, tenantId, userId))
    {
      var key := SubscriptionKey(channelId, tenantId, userId);
      if !(channelId in channels && channels[channelId].tenantId == tenantId) {
        return NotFound;
      }
      UnsubscribeTableEffect(subscriptions, key);
      var existing := FindSubscription(subscriptions, key);
      if existing.Some? {
        var i := existing.value;
        subscriptions := subscriptions[i := subscriptions[i].(subscribed := false, notifyMe := false)];
        var channel := channels[channelId];
        var parsed := ParseInt(channel.subscribers);
        if parsed.Some? && parsed.value != 0 {
          channel := channel.(subscribers := IntToString(parsed.value - 1));
        }
        channels := channels[channelId := channel];
      }
      status := Success;
    }

    method UserChannelNotify(channelId: Id, tenantId: TenantId, userId: UserId)
      returns (status: Status)
      requires Valid()
      modifies this
      ensures Valid()
      ensures Outcome(status, Db()) == Notify(old(Db()), SubscriptionKey(channelId, tenantId, userId))
    {
      var key := SubscriptionKey(channelId, tenantId, userId);
      if !(channelId in channels && channels[channelId].tenantId == tenantId) {
        return NotFound;
      }
      NotifyTableEffect(subscriptions, key);
      var existing := FindSubscription(subscriptions, key);
      if existing.Some? {
        var i := existing.value;
        subscriptions := subscriptions[i := subscriptions[i].(subscribed := true, notifyMe := true)];
      } else {
        subscriptions := subscriptions + [Subscription(key, true, true)];
      }
      status := Success;
    }

    method UserChannelUnnotify(channelId: Id, tenantId: TenantId, userId: UserId)
      returns (status: Status)
      requires Valid()
      modifies this
      ensures Valid()
      ensures Outcome(status, Db()) == Unnotify(old(Db()), SubscriptionKey(channelId, tenantId, userId))
    {
      var key := SubscriptionKey(channelId, tenantId, userId);
      if !(channelId in channels && channels[channelId].tenantId == tenantId) {
        return NotFound;
      }
      UnnotifyTableEffect(subscriptions, key);
      var existing := FindSubscription(subscriptions, key);
      if existing.Some? {
        var i := existing.value;
        subscriptions := subscriptions[i := subscriptions[i].(notifyMe := false)];
      }
      status := Success;
    }
  }
}
