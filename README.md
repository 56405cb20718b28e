# lifestream-mediamanager service rules in Dafny

This project models the rules inside the service layer of the lifestream
media manager, a multi-tenant back end for channels, media, channel links,
media tags and ministers. Each collection is an in-memory store: a map from
document id to a record, plus a sequence for the channel-subscription
documents. Each request is one atomic step that returns a response status
(SUCCESS, ERROR, NOT_FOUND, FAILED_VALIDATION or UNAUTHORIZED) and the new
state of the store.

- **Channels** (`channel_service.dfy`, class `ChannelStore`):
  - verification of a channel by an elevated role, with a case-insensitive YES/NO instruction;
  - the per-user subscription and notification documents, with at most one document per (channel, tenant, user);
  - the subscriber counter, which is stored as text and read back with `parseInt`;
  - the partial update of a channel's details;
  - the gate in front of the listing of a user's channels.
- **Media** (`media_service.dfy`, class `MediaStore`):
  - creation, with the owner's default channel standing in for a missing channel;
  - the partial update, including the merge rule for the multi-valued references (`association_merge.dfy`) and the fallback to the default channel;
  - the offset and limit defaults of the text search (`parseInt` as in `js_number.dfy`);
  - the verified-channel gate in front of reactivation.
- **Channel links** (`channel_link_service.dfy`, class `ChannelLinkStore`): the partial update with the same merge rule.
- **Media tags and ministers** (`media_tag_service.dfy`, `minister_service.dfy`):
  - validation of a new record, in order: the rules declared on the request body, then a name unique by its digest, then (for ministers) a known ministry;
  - creation and update, keeping the stored digest equal to the digest of the stored name;
  - minister suspension, reactivation and deletion.
- **Request bodies** (`create_media_tag_dto.dfy`, `create_minister_dto.dfy`, `update_media_tag_dto.dfy`): the required and enumeration rules declared on them, as the list of violations `validateSync` reports.

The following stand-ins are used:

- The digest function (`sha256`) is a parameter of the stores. It is not assumed injective.
- Timestamps are parameters.
- A request field is an `Option<string>`, where `None` stands for undefined or null.
- Truthiness is JavaScript's.
- Each store holds only its own collections. `MediaStore` and `ChannelStore` each keep their own `channels` map, and nothing ties a media's channel references or an owner's default channel to the channel store's collection.

## Model

| member | source | states |
|---|---|---|
| JsNumber.ParseIntRoundTrip | src/services/channelservice.ts:399-401 | `parseInt` of the decimal numeral of any integer gives that integer back, so a counter written as a number reads back as that number |
| AssociationMerge.Merge | src/services/mediaservice.ts:361-377 | a supplied array is the result; a supplied scalar is appended after the stored references, and the result is an array whenever something was stored; a falsy supplied value gives a falsy result |
| AssociationMerge.UpdateField | src/services/mediaservice.ts:361-377 | the stored references after an update: the supplied array, or the old references followed by the supplied scalar, or the stored value unchanged when nothing truthy was supplied |
| AssociationMerge.AppendKeepsOrder | src/services/mediaservice.ts:363-374 | a supplied scalar keeps every stored reference in its place and adds exactly one at the end |
| AssociationMerge.ArrayUpdateIdempotent | src/services/mediaservice.ts:361-362 | supplying the same array twice leaves what supplying it once leaves |
| AssociationMerge.ScalarUpdateTwice | src/services/mediaservice.ts:363-374 | supplying the same scalar twice stores it twice, so this update is not idempotent |
| ChannelService.InstructionSpellings | src/services/channelservice.ts:249-253 | the upper-cased instruction is "YES" exactly for the twelve spellings listed (including the long s) and "NO" exactly for the four listed |
| ChannelService.DecideVerification | src/services/channelservice.ts:249-289 | an absent instruction makes the call throw before any lookup, with nothing changed (written as ERROR); a role outside maxsuperuser/superuser/superadmin/admin is UNAUTHORIZED; an instruction that is neither YES nor NO is FAILED_VALIDATION; otherwise the channel is verified exactly when the instruction is YES |
| ChannelService.VerifyChannelOutcome | src/services/channelservice.ts:239-291 | SUCCESS exactly for an allowed role with YES/NO on an existing channel, and then only that channel's verified flag and update time change; NOT_FOUND for a missing channel; every failure leaves the store as it was; subscriptions are never touched |
| ChannelService.FindSubscription | src/services/channelservice.ts:358-367 | the lookup returns the first document with the (channel, tenant, user) key, or none when no document has it |
| ChannelService.SubscribeTableEffect | src/services/channelservice.ts:369-397 | after a subscribe, the key has a subscribed document whose notifyMe is what it was (false for a new one); a document is created only when none had the key; other keys' documents are unchanged; uniqueness of keys is preserved |
| ChannelService.UnsubscribeTableEffect | src/services/channelservice.ts:446-466 | after an unsubscribe, the key's document has both flags cleared; with no document, nothing changes; other keys are unchanged; uniqueness is preserved |
| ChannelService.NotifyTableEffect | src/services/channelservice.ts:509-539 | after a notify, the key has a document with both flags set, created only when none existed; other keys are unchanged; uniqueness is preserved |
| ChannelService.UnnotifyTableEffect | src/services/channelservice.ts:582-594 | after an unnotify, only the key's notifyMe is cleared; with no document, nothing changes; uniqueness is preserved |
| ChannelService.IncrementedCounter | src/services/channelservice.ts:399-401 | after a subscribe, the counter reads as one more than before, or as 1 when it read as NaN or 0 |
| ChannelService.DecrementedCounter | src/services/channelservice.ts:458-461 | an unsubscribe takes one off a counter that reads as a non-zero number and leaves any other counter as it is, so a non-negative counter stays non-negative |
| ChannelService.CounterRoundTrip | src/services/channelservice.ts:399-401 | subscribe followed by unsubscribe restores a counter holding the numeral of a non-negative number |
| ChannelService.MissingChannelChangesNothing | src/services/channelservice.ts:404-408 | subscribe, unsubscribe, notify and unnotify on a channel the tenant does not have answer NOT_FOUND and change nothing; on an existing channel they answer SUCCESS |
| ChannelService.Subscribe | src/services/channelservice.ts:336-411 | NOT_FOUND with nothing changed unless the tenant has the channel; otherwise SUCCESS, the documents change as SubscribeTable says, no other channel changes, and the channel's counter reads as one more (or 1 after NaN or 0) on every call, even for a user already subscribed |
| ChannelService.Unsubscribe | src/services/channelservice.ts:413-474 | NOT_FOUND with nothing changed unless the tenant has the channel; SUCCESS with nothing changed when the user has no document; otherwise the document changes as UnsubscribeTable says and only the channel's counter changes, one down when it reads as a non-zero number |
| ChannelService.Notify | src/services/channelservice.ts:476-547 | NOT_FOUND with nothing changed unless the tenant has the channel; otherwise SUCCESS with the documents changed as NotifyTable says; a channel document, and so the counter, is never touched |
| ChannelService.Unnotify | src/services/channelservice.ts:549-602 | NOT_FOUND with nothing changed unless the tenant has the channel; otherwise SUCCESS with the documents changed as UnnotifyTable says; a channel document, and so the counter, is never touched |
| ChannelService.SubscribeCounter | src/services/channelservice.ts:399-403 | a subscribe turns the counter numeral of n into the numeral of n + 1, even for a user who was already subscribed |
| ChannelService.UnsubscribeCounter | src/services/channelservice.ts:446-463 | an unsubscribe by a user with a document turns the counter numeral of n + 1 into the numeral of n |
| ChannelService.SubscribeUnsubscribeSubscribe | src/services/channelservice.ts:336-474 | subscribe, unsubscribe and subscribe again: the counter ends where the first subscribe left it, and the user has exactly one document, subscribed and not notified |
| ChannelService.UpdatedChannel | src/services/channelservice.ts:165-172 | name, description, banner and image are overwritten only by a truthy value; the verified flag, counter, owner and active flag stay; the update time is set |
| ChannelService.ListUserChannelGate | src/services/channelservice.ts:611-616 | the listing goes ahead exactly when the userId query names the caller; otherwise the answer is NOT_FOUND |
| ChannelService.ChannelStore.VerifyChannel | src/services/channelservice.ts:239-291 | the new store and status are those of the verification decision above; key uniqueness is kept |
| ChannelService.ChannelStore.UpdateChannelData | src/services/channelservice.ts:145-190 | SUCCESS exactly when the channel is the caller's in the tenant, and then the channel becomes the updated channel; NOT_FOUND otherwise, with nothing changed |
| ChannelService.ChannelStore.UserChannelSubscription | src/services/channelservice.ts:336-411 | status and new state are those of the subscribe specification; key uniqueness is kept |
| ChannelService.ChannelStore.UserChannelUnsubscription | src/services/channelservice.ts:413-474 | status and new state are those of the unsubscribe specification; key uniqueness is kept |
| ChannelService.ChannelStore.UserChannelNotify | src/services/channelservice.ts:476-547 | status and new state are those of the notify specification; key uniqueness is kept |
| ChannelService.ChannelStore.UserChannelUnnotify | src/services/channelservice.ts:549-602 | status and new state are those of the unnotify specification; key uniqueness is kept |
| CreateMediaTagDto.Validate | src/dto/input/createmediatagdto.ts:5-29 | no violation exactly when name is truthy and coreType is one of music, sermon, music-sermon; "Name is required" exactly for a falsy name; "Core Type is required" exactly for a falsy coreType; the enumeration message exactly for a coreType outside the enumeration; only name and coreType are ever reported |
| CreateMediaTagDto.OptionalFieldsIgnored | src/dto/input/createmediatagdto.ts:10-14 | prettyName and image never change the violations |
| CreateMediaTagDto.RequiredImpliesEnum | src/dto/input/createmediatagdto.ts:16-22 | a coreType reported as missing is always also reported as outside the enumeration |
| CreateMinisterDto.Validate | src/dto/input/createministerdto.ts:6-41 | no violation exactly when name is truthy, coreType is in its enumeration and office is absent or one of apostle, prophet, evangelist, pastor, teacher; each message exactly when its rule is broken; an empty office is checked and rejected |
| CreateMinisterDto.UnconstrainedFieldsIgnored | src/dto/input/createministerdto.ts:11-18 | prettyName, image and ministry never change the violations |
| UpdateMediaTagDto.Validate | src/dto/input/updatemediatagdto.ts:5-25 | no violation exactly when coreType is absent or in the enumeration; a violation is always the coreType enumeration message |
| UpdateMediaTagDto.OnlyCoreTypeDecides | src/dto/input/updatemediatagdto.ts:5-12 | name, prettyName and image never change the violations |
| MediaService.WithDefaultChannel | src/services/mediaservice.ts:455-457 | a merged channel list that is falsy or empty becomes the default channel, or stays falsy when the user has no channel; a non-empty one is kept |
| MediaService.UpdatedChannels | src/services/mediaservice.ts:399-415 | the stored channel list after an update: a supplied non-empty array, or the old list plus a supplied id, or just the default channel when nothing (or an empty array) was supplied |
| MediaService.UpdatedMedia | src/services/mediaservice.ts:359-479 | each reference field follows the merge rule; the channel list falls back to the default; name, prettyName, sourceLink, description and scheduleAt are overwritten only by a truthy value; views, likes, dislikes, trending, trendingAt, length, owner and active flag never change |
| MediaService.UpdateWithoutChannelMovesToDefault | src/services/mediaservice.ts:399-415 | an update that names no channel leaves the media in the user's default channel alone, whatever channels it was in before |
| MediaService.EmptyUpdateKeepsMedia | src/services/mediaservice.ts:459-479 | an update that supplies nothing changes only the update time when the user has no channel |
| MediaService.NewMedia | src/services/mediaservice.ts:61-121 | the new document carries the body's fields, the caller as owner, the inactive default, and the default channel in place of a falsy channel |
| MediaService.EmptyChannelListCreateVersusUpdate | src/services/mediaservice.ts:95 | an empty channel array is kept by creation (it is truthy) but replaced by the default channel on update |
| MediaService.QueryNumber | src/services/mediaservice.ts:138-158 | a paging parameter that is absent or parses to NaN or 0 takes the default; otherwise it is the parsed, non-zero integer |
| MediaService.QueryNumberOfNumeral | src/services/mediaservice.ts:150-158 | every integer written as a query parameter is kept, except 0, which becomes the default |
| MediaService.PlanSearch | src/services/mediaservice.ts:146-182 | a falsy filter runs no search; otherwise the search uses the filter text with offset defaulting to 0 and limit to 50 |
| MediaService.SearchStatus | src/services/mediaservice.ts:159-181 | SUCCESS exactly when a search ran, NOT_FOUND otherwise |
| MediaService.DefaultPaging | src/services/mediaservice.ts:150-158 | without paging parameters a search skips none and reads at most 50 |
| MediaService.ExplicitPaging | src/services/mediaservice.ts:150-158 | non-zero offset and limit written as numerals are used as given; a zero falls back to the default |
| MediaService.FirstExistingChannel | src/services/mediaservice.ts:207-208 | the first channel reference that still resolves, or none when none does |
| MediaService.UnSuspendGate | src/services/mediaservice.ts:202-237 | the answer is SUCCESS or FAILED_VALIDATION; SUCCESS exactly when the media is the caller's and, once references to deleted channels are dropped, the first remaining channel is verified |
| MediaService.DeletedChannelsSkipped | src/services/mediaservice.ts:207-222 | a reference to a deleted channel is skipped: the next existing channel decides, and a verified channel after it does not count |
| MediaService.UnSuspendGateSound | src/services/mediaservice.ts:218-236 | the gate opens only for a media that lists a verified channel, and always opens for an owned media whose first listed channel exists and is verified |
| MediaService.OnlyFirstChannelCounts | src/services/mediaservice.ts:218-222 | a verified channel behind an unverified first channel does not open the gate |
| MediaService.MediaStore.SaveNewMediaData | src/services/mediaservice.ts:61-121 | the new document is stored under a fresh id and nothing else changes |
| MediaService.MediaStore.UpdateMediaData | src/services/mediaservice.ts:328-497 | SUCCESS exactly for the caller's media, which becomes the updated media; otherwise ERROR when the merge reads the missing document, NOT_FOUND when it does not, and nothing changes |
| ChannelLinkService.UpdatedLink | src/services/channellinkservice.ts:182-206 | the channel list follows the merge rule (supplied array, old list plus a supplied id, or unchanged); linkKey and linkValue are overwritten only by a truthy value; the update time is set |
| ChannelLinkService.RepeatedUpdate | src/services/channellinkservice.ts:184-195 | repeating an update that supplies one channel id stores that id twice |
| ChannelLinkService.ChannelLinkStore.UpdateChannelLinkData | src/services/channellinkservice.ts:137-224 | SUCCESS exactly for the caller's link, which becomes the updated link; otherwise ERROR when a single channel id was supplied (the merge reads the missing link), else NOT_FOUND, and nothing changes |
| Common.CountWithDigest | src/services/mediatagservice.ts:270-276 | the count of documents with a digest is positive exactly when some document, in any tenant, has that digest; `findMediaTagWithName` and `findMinisterWithName` are this count on the digest of the name |
| MediaTagService.NewMediaTagErrors | src/services/mediatagservice.ts:245-268 | violations of the declared rules are returned alone; otherwise the result is empty exactly when the name is truthy and no tag has its digest, is a missing-name error for a falsy name, and is a duplicate-name error otherwise |
| MediaTagService.CreateNeverReportsRequired | src/services/mediatagservice.ts:250-256 | a creation never reports the missing-name error, because the declared rules already reject an empty name |
| MediaTagService.NewMediaTag | src/services/mediatagservice.ts:58-68 | the new tag's digest is the digest of its name; it carries the body's fields and the caller as owner, and is inactive |
| MediaTagService.UpdatedMediaTag | src/services/mediatagservice.ts:223-228 | a truthy name replaces the name and its digest together, so a digest equal to its name's digest stays so; prettyName, image and coreType are overwritten only by a truthy value |
| MediaTagService.CreatedNameIsTaken | src/services/mediatagservice.ts:255-265 | once a tag is stored, a creation with the same name gets the duplicate-name error |
| MediaTagService.MediaTagStore.ValidateNewMediaTagDetails | src/services/mediatagservice.ts:245-268 | the errors pushed are those of the validation function above |
| MediaTagService.MediaTagStore.CreateMediaTag | src/services/mediatagservice.ts:23-71 | SUCCESS exactly when validation finds nothing, and then the new tag is stored under a fresh id; otherwise FAILED_VALIDATION and nothing is stored; every stored digest matches its name |
| MediaTagService.MediaTagStore.UpdateMediaTag | src/services/mediatagservice.ts:176-243 | a missing tag is ERROR with nothing changed; otherwise SUCCESS with the updated tag, without any validation or duplicate check; every stored digest matches its name |
| MinisterService.NameErrors | src/services/ministerservice.ts:190-214 | empty exactly when the name is truthy and no minister has its digest |
| MinisterService.NewMinisterErrors | src/services/ministerservice.ts:184-206 | violations of the declared rules are returned alone; otherwise the missing-name error exactly for a falsy name, the duplicate-name error exactly for a truthy name whose digest is stored, and the invalid-ministry error exactly for a truthy ministry id that finds no ministry |
| MinisterService.CreateNeverReportsRequired | src/services/ministerservice.ts:185-191 | a creation never reports the missing-name error, because the declared rules already reject an empty name |
| MinisterService.NewMinister | src/services/ministerservice.ts:28-38 | the new minister's digest is the digest of its name; it carries the body's fields and the caller as owner, and is inactive |
| MinisterService.UpdatedMinister | src/services/ministerservice.ts:163-170 | name, image, digest and prettyName are always written, with the digest that of the new name; ministry, coreType and office are overwritten only by a truthy value |
| MinisterService.UpdateMinisterStatus | src/services/ministerservice.ts:115-140 | ERROR exactly for a missing minister; SUCCESS exactly when the name is unchanged or the new name passes validation; FAILED_VALIDATION otherwise |
| MinisterService.KeptNameSkipsValidation | src/services/ministerservice.ts:125-127 | an update that keeps the stored name succeeds whatever else it carries |
| MinisterService.RenameToTakenNameRefused | src/services/ministerservice.ts:128-133 | renaming to a name whose digest some minister already has is FAILED_VALIDATION |
| MinisterService.CreatedNameIsTaken | src/services/ministerservice.ts:190-197 | once a minister is stored, a creation with the same name gets the duplicate-name error |
| MinisterService.MinisterStore.ValidateNewMinisterDetails | src/services/ministerservice.ts:184-206 | the errors pushed are those of the validation function above |
| MinisterService.MinisterStore.CreateMinister | src/services/ministerservice.ts:14-38 | SUCCESS exactly when validation finds nothing, and then the new minister is stored under a fresh id; otherwise FAILED_VALIDATION and nothing is stored |
| MinisterService.MinisterStore.UpdateMinister | src/services/ministerservice.ts:115-140 | the status is the update status above; on SUCCESS the minister becomes the updated minister, otherwise nothing changes; every stored digest matches its name |
| MinisterService.MinisterStore.UpdateMinisterData | src/services/ministerservice.ts:154-182 | the found minister becomes the updated minister and nothing else changes |
| MinisterService.MinisterStore.SuspendMinister | src/services/ministerservice.ts:65-88 | NOT_FOUND with nothing changed for a missing minister; otherwise only its active flag changes, to false |
| MinisterService.MinisterStore.UnSuspendMinister | src/services/ministerservice.ts:90-113 | NOT_FOUND with nothing changed for a missing minister; otherwise only its active flag changes, to true |
| MinisterService.MinisterStore.DeleteMinister | src/services/ministerservice.ts:142-152 | SUCCESS exactly when a minister with the id existed; the minister is gone afterwards either way |

## Left out

- Express, Mongoose and the network: requests, responses and database calls are modelled as operations on in-memory maps, each one atomic.
  - Races between a lookup and a later write are not modelled.
  - Saves that are not awaited are not modelled.
  - A response sent twice on an error path is not modelled; the model keeps the last status.
- Save failures: a database that refuses a save (ERROR) is not modelled.
- Timestamps: `Date.now` is the `now` parameter.
  - The creation time is not modelled.
  - The default `scheduleAt` given at creation is not modelled.
- The digest and encryption: `sha256` is an opaque parameter, and the encrypted `secret` fields are plain fields.
- Aspects: the audit-trail and exception-handling decorators (`trailNewRecord`, `list`, `handleException`, and the reactivation that `doUnSuspendMedia` performs) live in files that are not part of this model.
  - The model stores the document that a creation builds.
  - The media reactivation is modelled only up to its gate.
- Listing and lookup: the listing endpoints and the lookup of one record are not modelled, nor the execution of sort, `populate`, `$text`, skip and limit. Only the paging defaults and the first-resolving-channel rule of `populate` are modelled.
- Controllers and authorisation: route registration and `authorized` are not part of this model.
- Schema strict mode:
  - The model keeps the fields the services write, even where the schema would drop them.
  - Those dropped fields are `mediaCategory` in media, `coreType` in media tags and `ministry` in ministers.
  - The `channel` query field of a new subscription is not in the subscription schema, and the model leaves it out.
- Schema types: the media schema declares the reference fields as arrays, so stored values are always arrays there. The model allows any stored value, which covers that case.
- Missing model registrations: server.ts registers no `ministry` and no `channellink` model.
  - The model gives the minister store a set of known ministry ids.
  - The model gives the channel-link store a map of links, as the service code expects.
- Numbers:
  - JavaScript numbers are modelled as unbounded integers, so precision loss above 2^53 is not modelled.
  - Negative offsets and limits are passed through as parsed; the database's own handling of them is not modelled.
- Request bodies: values that are not strings, objects or arrays are not modelled. A field is a string or absent, and a reference field is absent, one value, or an array.
- Validation output: a class-validator error is modelled as its property and the set of broken messages. Its `value` and `children` are left out.
- MinisterService.MinisterStore.UpdateMinister: the update body's own rules are not part of this model, so their violations are the `ruleErrors` parameter.
  - Its constructor is not part of this model either. The prettyName it carries is a field of the update record.
- MinisterService.MinisterStore.SuspendMinister: the dereference of the missing minister after NOT_FOUND has been sent is not modelled. UnSuspendMinister is treated the same way.
- ChannelService.DecideVerification: `Reject(Error)` for an absent instruction stands for an unhandled throw. In `verifyChannel`, upper-casing an absent instruction throws, nothing catches it and the route does not await the call, so no response is sent at all. The model answers ERROR and leaves the store unchanged; ChannelService.ChannelStore.VerifyChannel inherits this.
- Enumeration values: the core types (`music`, `sermon`, `music-sermon`) and the offices are taken from the validation messages of the request-body rules. The enumeration file itself is not part of this model.
- Lookup of a malformed id: the ERROR answered by a lookup whose id cannot be cast is not modelled. Ids are natural numbers.
- UpdateMediaDTO: its definition is not part of this model. The update reads the body fields the service names.
