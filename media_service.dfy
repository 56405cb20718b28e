/** The media service: the partial update of a media document with its
    multi-valued references and the fallback to the owner's default channel,
    the creation of a media document, the paging defaults of the text
    search, and the verified-channel gate in front of reactivation. */
module MediaService {
  import opened Common
  import opened JsNumber
  import opened AssociationMerge
  import opened ChannelService

  datatype Media = Media(
    tenantId: TenantId,
    userId: UserId,
    name: Field,
    prettyName: Field,
    sourceLink: Field,          // held under `secret`
    thumbnailLink: Assoc<string>,
    mediaChannel: Assoc<Id>,
    mediaCategory: Assoc<Id>,
    mediaTag: Assoc<Id>,
    minister: Assoc<Id>,
    description: Field,
    views: Field,
    likes: Field,
    dislikes: Field,
    trending: Field,
    trendingAt: Field,
    scheduleAt: Field,
    mediaLength: Field,
    isActive: bool,
    lastUpdatedAt: Option<Timestamp>)

  /** The request body of a creation or an update. */
  datatype MediaInput = MediaInput(
    name: Field,
    prettyName: Field,
    sourceLink: Field,
    thumbnailLink: Assoc<string>,
    mediaChannel: Assoc<Id>,
    mediaCategory: Assoc<Id>,
    mediaTag: Assoc<Id>,
    minister: Assoc<Id>,
    description: Field,
    views: Field,
    likes: Field,
    dislikes: Field,
    trending: Field,
    trendingAt: Field,
    scheduleAt: Field,
    mediaLength: Field)

  /** What `channel.findOne({tenantId, userId})` hands back: one of the
      user's channels in the tenant when there is one, and nothing otherwise. */
  ghost predicate IsDefaultChannel(channels: map<Id, Channel>, tenantId: TenantId, userId: UserId, found: Option<Id>) {
    match found
    case Some(c) => c in channels && channels[c].tenantId == tenantId && channels[c].userId == userId
    case None => forall c :: c in channels ==> !(channels[c].tenantId == tenantId && channels[c].userId == userId)
  }

  // ---------------------------------------------------------------------
  // Update

  /** `!item || item.length == 0 ? item = defaultChannel && defaultChannel._id : ""`:
      a falsy or empty merged channel list is replaced by the default
      channel, or by nothing when the user has no channel. A single id is a
      non-empty string, so its length is never 0. */
  function WithDefaultChannel(merged: Assoc<Id>, defaultChannel: Option<Id>): (r: Assoc<Id>)
    ensures Values(merged) != [] ==> r == merged
    ensures Values(merged) == [] && defaultChannel.Some? ==> r == One(defaultChannel.value)
    ensures Values(merged) == [] && defaultChannel.None? ==> r.Absent?
  {
    if merged.Absent? || merged == Many([]) then
      match defaultChannel
      case Some(c) => One(c)
      case None => Absent
    else merged
  }

  /** The channel list a media document holds after an update. */
  function UpdatedChannels(stored: Assoc<Id>, supplied: Assoc<Id>, defaultChannel: Option<Id>): (r: Assoc<Id>)
    ensures supplied.Many? && supplied.values != [] ==> Values(r) == supplied.values
    ensures supplied.One? ==> Values(r) == Values(stored) + [supplied.value]
    ensures (supplied.Absent? || supplied == Many([])) && defaultChannel.Some? ==> Values(r) == [defaultChannel.value]
    ensures (supplied.Absent? || supplied == Many([])) && defaultChannel.None? ==> r == stored
  {
    Assign(stored, WithDefaultChannel(Merge(stored, supplied), defaultChannel))
  }

  /** The document after `updateMediaData` on a found media: the five
      reference fields follow the merge rule, the mediaChannel list falls
      back to the default channel, five details are overwritten only by a
      truthy value, and the counters, the trend fields, the length and the
      active flag are never touched. */
  function UpdatedMedia(m: Media, dto: MediaInput, defaultChannel: Option<Id>, now: Timestamp): (r: Media)
    ensures r.tenantId == m.tenantId && r.userId == m.userId && r.isActive == m.isActive
    ensures r.views == m.views && r.likes == m.likes && r.dislikes == m.dislikes
    ensures r.trending == m.trending && r.trendingAt == m.trendingAt && r.mediaLength == m.mediaLength
    ensures r.name == Overwrite(m.name, dto.name) && r.prettyName == Overwrite(m.prettyName, dto.prettyName)
    ensures r.sourceLink == Overwrite(m.sourceLink, dto.sourceLink)
    ensures r.description == Overwrite(m.description, dto.description)
    ensures r.scheduleAt == Overwrite(m.scheduleAt, dto.scheduleAt)
    ensures r.mediaTag == UpdateField(m.mediaTag, dto.mediaTag)
    ensures r.minister == UpdateField(m.minister, dto.minister)
    ensures r.mediaCategory == UpdateField(m.mediaCategory, dto.mediaCategory)
    ensures r.thumbnailLink == UpdateField(m.thumbnailLink, dto.thumbnailLink)
    ensures r.mediaChannel == UpdatedChannels(m.mediaChannel, dto.mediaChannel, defaultChannel)
    ensures r.lastUpdatedAt == Some(now)
  {
    m.(name := Overwrite(m.name, dto.name),
       prettyName := Overwrite(m.prettyName, dto.prettyName),
       sourceLink := Overwrite(m.sourceLink, dto.sourceLink),
       mediaChannel := UpdatedChannels(m.mediaChannel, dto.mediaChannel, defaultChannel),
       mediaTag := UpdateField(m.mediaTag, dto.mediaTag),
       minister := UpdateField(m.minister, dto.minister),
       mediaCategory := UpdateField(m.mediaCategory, dto.mediaCategory),
       thumbnailLink := UpdateField(m.thumbnailLink, dto.thumbnailLink),
       description := Overwrite(m.description, dto.description),
       scheduleAt := Overwrite(m.scheduleAt, dto.scheduleAt),
       lastUpdatedAt := Some(now))
  }

  /** A document agreeing with the update on every field is the updated document. */
  lemma UpdatedMediaByFields(m: Media, dto: MediaInput, defaultChannel: Option<Id>, now: Timestamp, r: Media)
    requires r.tenantId == m.tenantId && r.userId == m.userId && r.isActive == m.isActive
    requires r.views == m.views && r.likes == m.likes && r.dislikes == m.dislikes
    requires r.trending == m.trending && r.trendingAt == m.trendingAt && r.mediaLength == m.mediaLength
    requires r.name == Overwrite(m.name, dto.name) && r.prettyName == Overwrite(m.prettyName, dto.prettyName)
    requires r.sourceLink == Overwrite(m.sourceLink, dto.sourceLink)
    requires r.description == Overwrite(m.description, dto.description)
    requires r.scheduleAt == Overwrite(m.scheduleAt, dto.scheduleAt)
    requires r.mediaTag == UpdateField(m.mediaTag, dto.mediaTag)
    requires r.minister == UpdateField(m.minister, dto.minister)
    requires r.mediaCategory == UpdateField(m.mediaCategory, dto.mediaCategory)
    requires r.thumbnailLink == UpdateField(m.thumbnailLink, dto.thumbnailLink)
    requires r.mediaChannel == UpdatedChannels(m.mediaChannel, dto.mediaChannel, defaultChannel)
    requires r.lastUpdatedAt == Some(now)
    ensures r == UpdatedMedia(m, dto, defaultChannel, now)
  {
  }

  /** The merge reads the stored document for some field: with no document
      that read throws, and the update answers ERROR. */
  predicate ReadsStoredMedia(dto: MediaInput) {
    ReadsStored(dto.mediaTag) || ReadsStored(dto.minister) || ReadsStored(dto.mediaChannel)
    || ReadsStored(dto.mediaCategory) || ReadsStored(dto.thumbnailLink)
  }

  /** `findOne({_id, tenantId, userId})` finds the media. */
  predicate OwnsMedia(media: map<Id, Media>, id: Id, tenantId: TenantId, userId: UserId) {
    id in media && media[id].tenantId == tenantId && media[id].userId == userId
  }

  /** An update that names no channel still rewrites the channel list: when
      the user has a channel, the media ends up in that channel alone,
      whatever channels it was in before. */
  lemma UpdateWithoutChannelMovesToDefault(m: Media, dto: MediaInput, c: Id, now: Timestamp)
    requires dto.mediaChannel.Absent?
    ensures Values(UpdatedMedia(m, dto, Some(c), now).mediaChannel) == [c]
  {
  }

  /** An update that supplies nothing but the counters changes nothing but
      the update time when the user has no channel. */
  lemma EmptyUpdateKeepsMedia(m: Media, dto: MediaInput, now: Timestamp)
    requires !Truthy(dto.name) && !Truthy(dto.prettyName) && !Truthy(dto.sourceLink)
    requires !Truthy(dto.description) && !Truthy(dto.scheduleAt)
    requires dto.thumbnailLink.Absent? && dto.mediaChannel.Absent? && dto.mediaCategory.Absent?
    requires dto.mediaTag.Absent? && dto.minister.Absent?
    ensures UpdatedMedia(m, dto, None, now) == m.(lastUpdatedAt := Some(now))
  {
  }

  // ---------------------------------------------------------------------
  // Creation

  /** The document `saveNewMediaData` builds: the body's fields as given,
      with the default channel standing in for a falsy mediaChannel, and the
      schema's inactive default. */
  function NewMedia(tenantId: TenantId, userId: UserId, dto: MediaInput, defaultChannel: Option<Id>): (r: Media)
    ensures r.tenantId == tenantId && r.userId == userId && !r.isActive && r.lastUpdatedAt.None?
    ensures dto.mediaChannel.Absent? && defaultChannel.Some? ==> Values(r.mediaChannel) == [defaultChannel.value]
    ensures !(dto.mediaChannel.Absent? && defaultChannel.Some?) ==> r.mediaChannel == dto.mediaChannel
    ensures r.name == dto.name && r.prettyName == dto.prettyName && r.sourceLink == dto.sourceLink
    ensures r.thumbnailLink == dto.thumbnailLink && r.mediaCategory == dto.mediaCategory
    ensures r.mediaTag == dto.mediaTag && r.minister == dto.minister && r.description == dto.description
    ensures r.views == dto.views && r.likes == dto.likes && r.dislikes == dto.dislikes
    ensures r.trending == dto.trending && r.trendingAt == dto.trendingAt
    ensures r.scheduleAt == dto.scheduleAt && r.mediaLength == dto.mediaLength
  {
    var channel := if dto.mediaChannel.Absent? && defaultChannel.Some? then One(defaultChannel.value) else dto.mediaChannel;
    Media(tenantId, userId, dto.name, dto.prettyName, dto.sourceLink, dto.thumbnailLink, channel,
      dto.mediaCategory, dto.mediaTag, dto.minister, dto.description, dto.views, dto.likes,
      dto.dislikes, dto.trending, dto.trendingAt, dto.scheduleAt, dto.mediaLength, false, None)
  }

  /** An empty array is truthy: creation keeps an empty channel list, while
      an update replaces it by the default channel. */
  lemma EmptyChannelListCreateVersusUpdate(m: Media, dto: MediaInput, c: Id, now: Timestamp)
    requires dto.mediaChannel == Many([])
    ensures Values(NewMedia(m.tenantId, m.userId, dto, Some(c)).mediaChannel) == []
    ensures Values(UpdatedMedia(m, dto, Some(c), now).mediaChannel) == [c]
  {
  }

  // ---------------------------------------------------------------------
  // Search paging

  /** `parseInt(query)`, replaced by the default when it is falsy (NaN, 0 or
      -0). An absent query parameter parses as NaN. The `isNotANumber` test
      adds nothing: it calls a decorator factory, whose result is always truthy. */
  function QueryNumber(query: Field, default: int): (r: int)
    ensures query.None? ==> r == default
    ensures query.Some? && !ParsesTruthy(query.value) ==> r == default
    ensures query.Some? && ParsesTruthy(query.value) ==> r == ParseInt(query.value).value && r != 0
  {
    if query.Some? && ParsesTruthy(query.value) then ParseInt(query.value).value else default
  }

  /** Every integer but 0 written in a query parameter is kept; 0 becomes the default. */
  lemma QueryNumberOfNumeral(n: int, default: int)
    ensures QueryNumber(Some(IntToString(n)), default) == if n == 0 then default else n
  {
    ParseIntRoundTrip(n);
  }

  /** The query that `searchMedia` runs: a full-text search for the filter,
      skipping `skip` documents and returning at most `limit`. */
  datatype SearchPlan = NotSearched | Search(text: string, skip: int, limit: int)

  /** A falsy filter runs no query; otherwise offset and limit default to 0 and 50. */
  function PlanSearch(filterName: Field, offsetQuery: Field, limitQuery: Field): (r: SearchPlan)
    ensures r.NotSearched? <==> !Truthy(filterName)
    ensures r.Search? ==> r.text == filterName.value
    ensures r.Search? ==> r.skip == QueryNumber(offsetQuery, 0) && r.limit == QueryNumber(limitQuery, 50)
  {
    if Truthy(filterName) then Search(filterName.value, QueryNumber(offsetQuery, 0), QueryNumber(limitQuery, 50))
    else NotSearched
  }

  /** A search answers NOT_FOUND without a filter and SUCCESS with one (a
      query that finds nothing still yields an array, which is truthy). */
  function SearchStatus(plan: SearchPlan): (r: Status)
    ensures r == Success <==> plan.Search?
    ensures r != Success ==> r == NotFound
  {
    if plan.Search? then Success else NotFound
  }

  /** Without paging parameters a search reads the first 50 matches. */
  lemma DefaultPaging(filter: string)
    requires filter != ""
    ensures PlanSearch(Some(filter), None, None) == Search(filter, 0, 50)
  {
  }

  /** Paging parameters written as non-zero integers are used as given; a
      zero offset or limit falls back to the default. */
  lemma ExplicitPaging(filter: string, offset: int, limit: int)
    requires filter != ""
    ensures PlanSearch(Some(filter), Some(IntToString(offset)), Some(IntToString(limit)))
      == Search(filter, if offset == 0 then 0 else offset, if limit == 0 then 50 else limit)
  {
    QueryNumberOfNumeral(offset, 0);
    QueryNumberOfNumeral(limit, 50);
  }

  // ---------------------------------------------------------------------
  // Reactivation gate

  /** The index of the first referenced channel that still exists: `populate`
      leaves out references to deleted channels. */
  function FirstExistingChannel(refs: seq<Id>, channels: map<Id, Channel>): (r: Option<nat>)
    ensures r.Some? ==> r.value < |refs| && refs[r.value] in channels
    ensures r.Some? ==> forall j :: 0 <= j < r.value ==> refs[j] !in channels
    ensures r.None? ==> forall j :: 0 <= j < |refs| ==> refs[j] !in channels
  {
    if refs == [] then None
    else if refs[0] in channels then Some(0)
    else match FirstExistingChannel(refs[1..], channels)
      case None => None
      case Some(i) => Some(i + 1)
  }

  /** `unSuspendMedia` proceeds to the reactivation only when the media is
      the caller's and its first populated channel is verified; every other
      case, a missing media included, is FAILED_VALIDATION. */
  function UnSuspendGate(media: map<Id, Media>, channels: map<Id, Channel>, id: Id, tenantId: TenantId, userId: UserId): (r: Status)
    ensures r == Success || r == FailedValidation
    ensures !OwnsMedia(media, id, tenantId, userId) ==> r == FailedValidation
    ensures r == Success <==>
      OwnsMedia(media, id, tenantId, userId)
      && var refs := Values(media[id].mediaChannel);
         exists i :: 0 <= i < |refs| && refs[i] in channels && channels[refs[i]].isVerified
           && forall j :: 0 <= j < i ==> refs[j] !in channels
  {
    if !OwnsMedia(media, id, tenantId, userId) then FailedValidation
    else
      var refs := Values(media[id].mediaChannel);
      match FirstExistingChannel(refs, channels)
      case None => FailedValidation
      case Some(i) =>
        if channels[refs[i]].isVerified then Success
        else
          assert forall k :: (0 <= k < |refs| && refs[k] in channels
                               && (forall j :: 0 <= j < k ==> refs[j] !in channels)) ==> k == i;
          FailedValidation
  }

  /** The gate opens only for a media that lists a verified channel, and it
      opens for every owned media whose first listed channel exists and is
      verified. */
  lemma {:induction false} UnSuspendGateSound(media: map<Id, Media>, channels: map<Id, Channel>, id: Id, tenantId: TenantId, userId: UserId)
    ensures UnSuspendGate(media, channels, id, tenantId, userId) == Success ==>
      exists c :: c in Values(media[id].mediaChannel) && c in channels && channels[c].isVerified
    ensures (OwnsMedia(media, id, tenantId, userId) && Values(media[id].mediaChannel) != []
      && Values(media[id].mediaChannel)[0] in channels && channels[Values(media[id].mediaChannel)[0]].isVerified) ==>
      UnSuspendGate(media, channels, id, tenantId, userId) == Success
  {
    if UnSuspendGate(media, channels, id, tenantId, userId) == Success {
      var refs := Values(media[id].mediaChannel);
      var i := FirstExistingChannel(refs, channels).value;
      assert refs[i] in refs;
    }
  }

  /** A verified channel behind an unverified one does not open the gate. */
  lemma OnlyFirstChannelCounts(m: Media, channels: map<Id, Channel>, id: Id, first: Id, second: Id)
    requires first in channels && !channels[first].isVerified
    requires second in channels && channels[second].isVerified
    requires m.mediaChannel == Many([first, second])
    ensures UnSuspendGate(map[id := m], channels, id, m.tenantId, m.userId) == FailedValidation
  {
    assert FirstExistingChannel([first, second], channels) == Some(0);
  }

  /** References to deleted channels are skipped: behind a deleted channel,
      the next existing channel decides, and a verified channel further on
      does not count. */
  lemma DeletedChannelsSkipped(m: Media, channels: map<Id, Channel>, id: Id, gone: Id, first: Id, second: Id)
    requires gone !in channels
    requires first in channels && second in channels && channels[second].isVerified
    requires m.mediaChannel == Many([gone, first, second])
    ensures UnSuspendGate(map[id := m], channels, id, m.tenantId, m.userId) ==
      if channels[first].isVerified then Success else FailedValidation
  {
    assert FirstExistingChannel([gone, first, second], channels) == Some(1);
  }

  // ---------------------------------------------------------------------
  // The service over its collections

  class MediaStore {
    var channels: map<Id, Channel>
    var media: map<Id, Media>
    var nextId: Id

    ghost predicate Valid()
      reads this
    {
      forall id :: id in media ==> id < nextId
    }

    constructor (channels: map<Id, Channel>)
      ensures Valid() && this.channels == channels && media == map[]
    {
      this.channels := channels;
      media := map[];
      nextId := 0;
    }

    /** `saveNewMediaData`: the new document under a fresh id. */
    method SaveNewMediaData(tenantId: TenantId, userId: UserId, dto: MediaInput, defaultChannel: Option<Id>)
      returns (id: Id)
      requires Valid() && IsDefaultChannel(channels, tenantId, userId, defaultChannel)
      modifies this
      ensures Valid() && channels == old(channels)
      ensures id !in old(media)
      ensures media == old(media)[id := NewMedia(tenantId, userId, dto, defaultChannel)]
    {
      var mediaChannel := dto.mediaChannel;
      if mediaChannel.Absent? && defaultChannel.Some? {
        mediaChannel := One(defaultChannel.value);
      }
      var created := Media(tenantId, userId, dto.name, dto.prettyName, dto.sourceLink, dto.thumbnailLink,
        mediaChannel, dto.mediaCategory, dto.mediaTag, dto.minister, dto.description, dto.views,
        dto.likes, dto.dislikes, dto.trending, dto.trendingAt, dto.scheduleAt, dto.mediaLength, false, None);
      id := nextId;
      media := media[id := created];
      nextId := nextId + 1;
    }

    /** `updateMediaData`: the merge runs before the lookup is checked, so a
      scalar reference with no document to merge into throws (ERROR); with
      no document and no such scalar the answer is NOT_FOUND. */
    method UpdateMediaData(id: Id, tenantId: TenantId, userId: UserId, dto: MediaInput,
                           defaultChannel: Option<Id>, now: Timestamp)
      returns (status: Status)
      requires Valid() && IsDefaultChannel(channels, tenantId, userId, defaultChannel)
      modifies this
      ensures Valid() && channels == old(channels) && nextId == old(nextId)
      ensures OwnsMedia(old(media), id, tenantId, userId) ==> status == Success
      ensures !OwnsMedia(old(media), id, tenantId, userId) ==>
        status == (if ReadsStoredMedia(dto) then Error else NotFound)
      ensures status == Success ==> media == old(media)[id := UpdatedMedia(old(media)[id], dto, defaultChannel, now)]
      ensures status != Success ==> media == old(media)
    {
      if !(id in media && media[id].tenantId == tenantId && media[id].userId == userId) {
        if ReadsStoredMedia(dto) {
          return Error;
        }
        return NotFound;
      }
      var stored := media[id];
      var itemMediaTag := Merge(stored.mediaTag, dto.mediaTag);
      var itemMinister := Merge(stored.minister, dto.minister);
      var itemMediaChannel := Merge(stored.mediaChannel, dto.mediaChannel);
      var itemMediaCategory := Merge(stored.mediaCategory, dto.mediaCategory);
      var itemThumbnailLink := Merge(stored.thumbnailLink, dto.thumbnailLink);
      if itemMediaChannel.Absent? || itemMediaChannel == Many([]) {
        itemMediaChannel := if defaultChannel.Some? then One(defaultChannel.value) else Absent;
      }
      assert itemMediaChannel == WithDefaultChannel(Merge(stored.mediaChannel, dto.mediaChannel), defaultChannel);
      // each field is assigned only when its new value is truthy
      var name := Overwrite(stored.name, dto.name);
      var prettyName := Overwrite(stored.prettyName, dto.prettyName);
      var sourceLink := Overwrite(stored.sourceLink, dto.sourceLink);
      var mediaChannel := Assign(stored.mediaChannel, itemMediaChannel);
      var mediaTag := Assign(stored.mediaTag, itemMediaTag);
      var minister := Assign(stored.minister, itemMinister);
      var mediaCategory := Assign(stored.mediaCategory, itemMediaCategory);
      var thumbnailLink := Assign(stored.thumbnailLink, itemThumbnailLink);
      var description := Overwrite(stored.description, dto.description);
      var scheduleAt := Overwrite(stored.scheduleAt, dto.scheduleAt);
      var existing := stored.(name := name, prettyName := prettyName, sourceLink := sourceLink,
        mediaChannel := mediaChannel, mediaTag := mediaTag, minister := minister,
        mediaCategory := mediaCategory, thumbnailLink := thumbnailLink,
        description := description, scheduleAt := scheduleAt, lastUpdatedAt := Some(now));
      UpdatedMediaByFields(stored, dto, defaultChannel, now, existing);
      media := media[id := existing];
      status := Success;
    }
  }
}
