/**
 * The subscription registry of the configuration store: the
 * `subscribeStopChanMap` field maps each subscription identifier to the
 * stop channel of its listener. Channels are references in Go; here each
 * is a handle, and the store records which handles have been closed.
 * The listener goroutine itself is not part of this model; it never reads
 * its stop channel, so an open or closed channel says nothing about
 * whether notifications are still delivered.
 */
module Subscriptions {
  import opened Metadata

  /** A stop channel (`chan struct{}`), named by the order in which it was made. */
  type Chan = nat

  /** The name of the notification channel of a table, and the registry key `Subscribe` looks up. */
  function ChannelKey(table: string): string
  {
    "listen " + table
  }

  predicate IsHexDigit(c: char)
  {
    '0' <= c <= '9' || 'a' <= c <= 'f'
  }

  /** The text form of a UUID as `uuid.New().String()` writes it: 8-4-4-4-12 lower-case hex digits. */
  predicate IsUuid(s: string)
  {
    && |s| == 36
    && (forall i | 0 <= i < |s| && i in {8, 13, 18, 23} :: s[i] == '-')
    && (forall i | 0 <= i < |s| && i !in {8, 13, 18, 23} :: IsHexDigit(s[i]))
  }

  /** No channel key can be a UUID: it starts with `l`, which is not a hex digit. */
  lemma ChannelKeyIsNotUuid(table: string)
    ensures !IsUuid(ChannelKey(table))
  {
    var k := ChannelKey(table);
    assert k[0] == 'l' && !IsHexDigit(k[0]);
  }

  /**
   * In a registry whose identifiers all came from `uuid.New()`, the lookup of
   * the channel key never finds an entry: the supersession in `Subscribe` never fires.
   */
  lemma SupersessionNeverFires(stopChans: map<string, Chan>, table: string)
    requires forall id | id in stopChans :: IsUuid(id)
    ensures ChannelKey(table) !in stopChans
  {
    ChannelKeyIsNotUuid(table);
  }

  class ConfigurationStore {
    /** The settings `Init` stored, in particular `configTable`. */
    const metadata: StoreMetadata
    /** `subscribeStopChanMap`: subscription identifier to stop channel. */
    var stopChans: map<string, Chan>
    /** The stop channels closed so far. */
    var closed: set<Chan>
    /** How many stop channels have been made; the next one made is `made`. */
    var made: nat

    /** Every known channel has been made, and no two identifiers share a channel. */
    ghost predicate Valid()
      reads this
    {
      && (forall id | id in stopChans :: stopChans[id] < made)
      && (forall c | c in closed :: c < made)
      && (forall id1, id2 | id1 in stopChans && id2 in stopChans && id1 != id2 :: stopChans[id1] != stopChans[id2])
    }

    /** Every registered subscription's stop channel is still open (not closed by `Subscribe` or `Unsubscribe`). */
    ghost predicate AllOpen()
      reads this
    {
      forall id | id in stopChans :: stopChans[id] !in closed
    }

    /** Every registered identifier is a UUID. */
    ghost predicate UuidKeyed()
      reads this
    {
      forall id | id in stopChans :: IsUuid(id)
    }

    /** A store as `Init` leaves it: settings in place, no subscription yet. */
    constructor (metadata: StoreMetadata)
      ensures Valid() && AllOpen() && UuidKeyed()
      ensures this.metadata == metadata
      ensures stopChans == map[] && closed == {} && made == 0
    {
      this.metadata := metadata;
      stopChans := map[];
      closed := {};
      made := 0;
    }

    /**
     * `Subscribe`, with `id` standing for the fresh `uuid.New()` value. The
     * entry stored under the channel key, if any, has its channel closed
     * (closing a closed channel would panic in Go); then a new open channel
     * is stored under `id`, and `id` is returned.
     */
    method Subscribe(id: string) returns (subscribeId: string)
      requires Valid()
      requires id !in stopChans
      requires ChannelKey(metadata.configTable) in stopChans ==>
        stopChans[ChannelKey(metadata.configTable)] !in closed
      modifies this
      ensures Valid()
      ensures subscribeId == id
      ensures made == old(made) + 1
      ensures stopChans == old(stopChans)[id := old(made)]
      ensures old(made) !in closed
      ensures closed == old(closed) +
        (if ChannelKey(metadata.configTable) in old(stopChans)
         then {old(stopChans)[ChannelKey(metadata.configTable)]} else {})
      // with UUID identifiers nothing is closed and every registered stop channel stays open
      ensures old(UuidKeyed()) && IsUuid(id) ==> UuidKeyed() && closed == old(closed)
      ensures old(AllOpen()) && ChannelKey(metadata.configTable) !in old(stopChans) ==> AllOpen()
    {
      var key := ChannelKey(metadata.configTable);
      if key in stopChans {
        closed := closed + {stopChans[key]};
      }
      var stop := made;
      made := made + 1;
      stopChans := stopChans[id := stop];
      subscribeId := id;
      if old(UuidKeyed()) {
        SupersessionNeverFires(old(stopChans), metadata.configTable);
      }
    }

    /**
     * `Unsubscribe`: a registered identifier is removed and its channel
     * closed; an unknown one changes nothing. The result is always success.
     */
    method Unsubscribe(id: string) returns (ok: bool)
      requires Valid()
      requires id in stopChans ==> stopChans[id] !in closed
      modifies this
      ensures Valid()
      ensures ok
      ensures made == old(made)
      ensures stopChans == old(stopChans) - {id}
      ensures closed == old(closed) + (if id in old(stopChans) then {old(stopChans)[id]} else {})
      ensures id !in old(stopChans) ==> stopChans == old(stopChans) && closed == old(closed)
      ensures old(AllOpen()) ==> AllOpen()
      ensures old(UuidKeyed()) ==> UuidKeyed()
    {
      if id in stopChans {
        var stop := stopChans[id];
        stopChans := stopChans - {id};
        closed := closed + {stop};
      }
      ok := true;
    }
  }

  /**
   * Two subscriptions on one store: `Subscribe` never closes the first
   * subscription's stop channel, so both stay open (the intended supersession does
   * not happen).
   */
  method SubscribeTwice(metadata: StoreMetadata, id1: string, id2: string) returns (firstOpen: bool, secondOpen: bool)
    requires IsUuid(id1) && IsUuid(id2) && id1 != id2
    ensures firstOpen && secondOpen
  {
    var store := new ConfigurationStore(metadata);
    var s1 := store.Subscribe(id1);
    ChannelKeyIsNotUuid(metadata.configTable);
    var s2 := store.Subscribe(id2);
    firstOpen := store.stopChans[s1] !in store.closed;
    secondOpen := store.stopChans[s2] !in store.closed;
  }

  /**
   * Unsubscribing twice: the first call closes the channel, the second finds
   * nothing and closes nothing, so no channel is closed twice.
   */
  method UnsubscribeTwice(metadata: StoreMetadata, id: string) returns (registeredAfter: bool, closedChannels: nat)
    requires IsUuid(id)
    ensures !registeredAfter && closedChannels == 1
  {
    var store := new ConfigurationStore(metadata);
    var s := store.Subscribe(id);
    var ok1 := store.Unsubscribe(s);
    var ok2 := store.Unsubscribe(s);
    registeredAfter := s in store.stopChans;
    closedChannels := |store.closed|;
  }
}
