/** The channel link service: the partial update of a link document, whose
    channel references follow the same merge rule as a media's. */
module ChannelLinkService {
  import opened Common
  import opened AssociationMerge

  datatype ChannelLink = ChannelLink(
    tenantId: TenantId,
    userId: UserId,
    mediaChannel: Assoc<Id>,
    linkKey: Field,
    linkValue: Field,
    isActive: bool,
    lastUpdatedAt: Option<Timestamp>)

  /** The request body of an update. */
  datatype ChannelLinkInput = ChannelLinkInput(mediaChannel: Assoc<Id>, linkKey: Field, linkValue: Field)

  /** The document after `updateChannelLinkData` on a found link. */
  function UpdatedLink(link: ChannelLink, dto: ChannelLinkInput, now: Timestamp): (r: ChannelLink)
    ensures r.tenantId == link.tenantId && r.userId == link.userId && r.isActive == link.isActive
    ensures dto.mediaChannel.Many? ==> Values(r.mediaChannel) == dto.mediaChannel.values
    ensures dto.mediaChannel.One? ==> Values(r.mediaChannel) == Values(link.mediaChannel) + [dto.mediaChannel.value]
    ensures dto.mediaChannel.Absent? ==> r.mediaChannel == link.mediaChannel
    ensures r.linkKey == (if Truthy(dto.linkKey) then dto.linkKey else link.linkKey)
    ensures r.linkValue == (if Truthy(dto.linkValue) then dto.linkValue else link.linkValue)
    ensures r.lastUpdatedAt == Some(now)
  {
    link.(mediaChannel := UpdateField(link.mediaChannel, dto.mediaChannel),
          linkKey := Overwrite(link.linkKey, dto.linkKey),
          linkValue := Overwrite(link.linkValue, dto.linkValue),
          lastUpdatedAt := Some(now))
  }

  /** Repeating an update that supplies a single channel lists that channel
      twice, while the key and value settle after the first update. */
  lemma RepeatedUpdate(link: ChannelLink, dto: ChannelLinkInput, now: Timestamp, later: Timestamp)
    requires dto.mediaChannel.One?
    ensures var twice := UpdatedLink(UpdatedLink(link, dto, now), dto, later);
      && Values(twice.mediaChannel) == Values(link.mediaChannel) + [dto.mediaChannel.value, dto.mediaChannel.value]
      && twice.linkKey == UpdatedLink(link, dto, now).linkKey
      && twice.linkValue == UpdatedLink(link, dto, now).linkValue
  {
    ScalarUpdateTwice(link.mediaChannel, dto.mediaChannel.value);
  }

  /** `findOne({_id, tenantId, userId})` finds the link. */
  predicate OwnsLink(links: map<Id, ChannelLink>, id: Id, tenantId: TenantId, userId: UserId) {
    id in links && links[id].tenantId == tenantId && links[id].userId == userId
  }

  class ChannelLinkStore {
    var links: map<Id, ChannelLink>

    constructor (links: map<Id, ChannelLink>)
      ensures this.links == links
    {
      this.links := links;
    }

    /** `updateChannelLinkData`: the merge runs before the lookup is checked,
        so a single supplied channel with no link to merge into throws
        (ERROR); with no link and no such channel the answer is NOT_FOUND. */
    method UpdateChannelLinkData(id: Id, tenantId: TenantId, userId: UserId, dto: ChannelLinkInput, now: Timestamp)
      returns (status: Status)
      modifies this
      ensures OwnsLink(old(links), id, tenantId, userId) ==> status == Success
      ensures !OwnsLink(old(links), id, tenantId, userId) ==>
        status == (if ReadsStored(dto.mediaChannel) then Error else NotFound)
      ensures status == Success ==> links == old(links)[id := UpdatedLink(old(links)[id], dto, now)]
      ensures status != Success ==> links == old(links)
    {
      if !(id in links && links[id].tenantId == tenantId && links[id].userId == userId) {
        if dto.mediaChannel.One? {
          return Error;
        }
        return NotFound;
      }
      var existing := links[id];
      var itemMediaChannel := Merge(existing.mediaChannel, dto.mediaChannel);
      existing := existing.(mediaChannel := Assign(existing.mediaChannel, itemMediaChannel));
      existing := existing.(linkKey := Overwrite(existing.linkKey, dto.linkKey));
      existing := existing.(linkValue := Overwrite(existing.linkValue, dto.linkValue));
      existing := existing.(lastUpdatedAt := Some(now));
      links := links[id := existing];
      status := Success;
    }
  }
}
