# Verification model of the fastocloud subscriber service

This project models the part of fastocloud that serves subscribers: the table of live connections shared by
two event loops, the documents in the database and their readers and writers, the catalogue and the stream
resolver, the devices of a user, the catchup cache with its failing writes, and the traffic statistics.

How it is built:

- A document is a sequence of fields (`Bson.dfy`), because the cursors of the source depend on their order;
  `Index` is the same document as a table. The database (`Store.dfy`) is five collections. A write has one of
  three outcomes: done, refused, or lost (applied although an error is reported). Stopping after any prefix of
  the writes leaves the same database as a refusal of the next one.
- Field names are numbered constants; the keys of stream documents are numbered in the order in which a new
  catchup document lists them.
- What the linked libraries do with texts (url and path normalisation, meta url validity, defaults) and the
  class texts stored in new documents are parameters, gathered in `Infos.Library`; results hold for all of them.
  `StreamClasses.dfy` holds the texts the service uses.
- The loops and the state of the source stay imperative: `Manager.SubscribersManager` keeps the connection
  table, the event log and the database as fields, `Subscribers.SubscriberInfo` is one connection,
  `Handlers.SubscribersHandler` and `Handlers.HttpHandler` fix the order of calls, `Stats.NodeStats` overwrites
  its last shot. Each method is proved against a specification function; the properties are lemmas about those
  functions and about runs.
- What those functions are is said once more in terms of the stored documents alone: who is logged in and what
  is answered (`Logins`), what the lists of a catalogue hold (`CatalogueContents`), where a stream is served from
  by array and type (`ResolverTypes`), what the setters write (`EntryWrites`), who gets a catchup and what it
  leaves behind (`CatchupOutcomes`), which fields the readers ask for (`SchemaFields`) and where each value comes
  from (`InfoValues`).
- `LoginProtocol.dfy` is the concurrent view: each critical section of the registry is one step of one of n
  loops, with a program counter per loop; counting the watchers of a stream and moving to it are two steps.
  `Devices.dfy` interleaves logins at the point between reading a user and writing the activation.
  `CatchupRuns.dfy` runs catchup and content requests, views and changes of users, by any users and with any
  write failing.

Where the code does not do what one might expect, the model follows the code:

- The device check and the registration are two critical sections, so n loops can log a device in n times
  (`LoginProtocol.BoundReached`). The bound n itself holds (`LoginProtocol.RunSafe`).
- The subscribers handler does not ask whether the connection is logged in already. A second login breaks the
  table and leaves an entry for a closed connection behind (`LoginProtocol.SecondLoginBreaksTable`,
  `LoginProtocol.SecondLoginHappens`). The table
  stays in order exactly if a connection registers only while it is not registered
  (`Registry.RegisterKeepsValid`); the HTTP handler guards this, the other does not.
- Entries this service adds to a user have no `locked` field, so a viewing time or an interruption time set on
  them is never shown (`UserEntries.WithoutLocked`, `UserUpdates.PushedEntryUpdates`).
- The watchers of a stream are counted under the lock and the client moves there outside of it. With two loops
  the reply can be stale by the time the client has moved (`Watchers.TwoLoopsStaleReply`).
- A proxy stream is accepted with any two required fields missing, but not with one (`Schemas.AcceptsIff`). A
  view fills in a missing counter, so the first view of a proxy that lacks its counter and one other field
  takes it out of the catalogue (`UserUpdates.FirstViewHidesProxy`).
- `SetRecent` writes into the documents the catchup cache is read from. A part that lacks only its counter
  starts to serve its request with its first view, and one whose counter leaves 32 bits stops; the cache is
  stable exactly if neither can happen (`CatchupSurvival.SurvivesIff`).
- The group names of a channel are written one level too deep into a new catchup and are not read back, and
  the answer to the creating request carries the audio and video flags the other way round than later answers
  (`CatchupDocs.RefoundAgrees`).
- A request that fails after its catchup was linked to the stream is answered from the cache from then on,
  and no daemon is ever told about that catchup (`CatchupAnnouncements.LostForGoodIff`).
- `SetRecent` counts a view of the stream whether or not the user has an entry for it.
- `GetAndUpdateOnlineUserByStreamID` updates nothing.
- A clock that is set back makes the divisor of the traffic rates wrap around (`Stats.ClockBack`).
- A meta url whose url stands before its name is read without the url (`InfoValues.MetaRead`).

Preconditions, stated where they are used: emails are unique; device ids are unique within a user; ids are in
canonical form; a stored document has no field twice, is stored under its own `_id`, and its lists of links
hold object ids only (the driver aborts on anything else); an id made up for a new document is not in use.

## Model

| member | source | states |
|---|---|---|
| `LoginProtocol.RunSafe` | src/mongo/subscribers_manager.cpp:517-559 | in every interleaving of n loops no bucket is empty, each registered connection stands exactly once in the bucket of its user, replaying the event log gives exactly who is online, and for each user and device the registered connections plus the logins that passed the check number at most n |
| `LoginProtocol.OneLoopOneConnection` | src/mongo/subscribers_manager.cpp:821-832 | with one loop a device is never connected twice |
| `LoginProtocol.BoundReached` | src/process_slave_wrapper.cpp:142-174 | for every n there is a run of n loops that connects one device n times |
| `LoginProtocol.SecondLoginBreaksTable` | src/subscribers/handler.cpp:264-295 | whenever a logged-in connection passes the check again, the table is no longer well formed and closing the connection leaves an entry for it |
| `LoginProtocol.SecondLoginHappens` | src/subscribers/handler.cpp:264-295 | one loop, one user and two devices suffice: a run reaches such a second login, and after the close the bucket of the user still holds the connection |
| `LoginProtocol.InvStep` | src/mongo/subscribers_manager.cpp:517-559 | every step of every loop keeps the four invariants |
| `LoginProtocol.LogKept` | src/base/isubscribers_manager.cpp:29-52 | the event emitted by a step is exactly the change in who is online |
| `LoginProtocol.BoundKept` | src/mongo/subscribers_manager.cpp:821-832 | a check that passes found no registered connection of the device; later steps only move the login from waiting to registered |
| `LoginProtocol.OwnerStep` | src/mongo/subscribers_manager.cpp:525-557 | only the last step of a login and a close change who is registered, each by one connection |
| `Registry.RegisterKeepsValid` | src/mongo/subscribers_manager.cpp:525-527 | registering keeps the table well formed if and only if the connection is not registered |
| `Registry.UnregisterKeepsValid` | src/mongo/subscribers_manager.cpp:542-557 | erasing the first occurrence and dropping an empty bucket keeps the table well formed |
| `Registry.NotBusyCountsZero` | src/mongo/subscribers_manager.cpp:821-832 | the device check finds a connection if and only if the number of connections from the device is positive |
| `Registry.TableAdded` | src/mongo/subscribers_manager.cpp:517-529 | registration keeps table, logins and event log in step |
| `Registry.TableRemoved` | src/mongo/subscribers_manager.cpp:531-559 | unregistration keeps them in step and the connection is gone |
| `Registry.OnePerDeviceAdd` | src/mongo/subscribers_manager.cpp:821-832 | entering a connection whose device was found free leaves no device of any user connected twice |
| `Registry.ViewRemove` | src/mongo/subscribers_manager.cpp:546-555 | removing a connection takes exactly what it showed out of what the table shows |
| `Watchers.WatchersAddUp` | src/mongo/subscribers_manager.cpp:575-587 | in every state of every run the watcher counts over all stream ids sum to the number of registered connections |
| `Watchers.RuntimeInfo` | src/subscribers/handler.cpp:401-405 | in every state of every interleaving the move gives the stream one watcher more and the old stream one less, unless the client was already there; no other count changes |
| `Watchers.ReplyWasCounted` | src/mongo/subscribers_manager.cpp:575-587 | the reply a loop is about to send is the count at the step of the run at which the loop counted |
| `Watchers.OneLoopReply` | src/subscribers/handler.cpp:401-405 | with one loop the reply is still the count before the move, and after it the count is the reply plus one, unless the client was already there |
| `Watchers.TwoLoopsStaleReply` | src/http/handler.cpp:209-209 | with two loops a run lets another client move in between, and the count after the move is the reply plus two |
| `Watchers.ViewChange` | src/base/subscriber_info.cpp:23-29 | if what is shown of one connection changes, the view changes by exactly that |
| `Stats.NodeStats.MakeServiceStats` | src/process_slave_wrapper.cpp:779-813 | both rates are the wrapped differences to the previous shot per whole second, at least one, and the shot replaces the previous one |
| `Stats.RatesTelescope` | src/process_slave_wrapper.cpp:779-813 | over any run with a counter and a clock that do not go back, sum(rate*dt) <= last - first < sum((rate+1)*dt) |
| `Stats.WholeSeconds` | src/process_slave_wrapper.cpp:794-798 | the divisor is the number of full seconds between the shots, or one if there is none |
| `Stats.ClockBack` | src/process_slave_wrapper.cpp:794-813 | a clock set back by a second or more makes the divisor wrap around, and traffic below 2^63 bytes is reported as none |
| `Bson.NextAtSkips` | src/mongo/subscribers_manager.cpp:228-247 | a cursor skips only fields with other keys |
| `Bson.IndexHoldsFields` | src/mongo/mongo2info.cpp:70-244 | with distinct keys the table of a document holds exactly its fields |
| `Bson.PermutedIndex` | src/mongo/mongo2info.cpp:70-244 | reordering the fields of a document keeps its keys distinct and its table |
| `Bson.SetFieldFrame` | src/mongo/subscribers_manager.cpp:1352-1354 | setting a field changes no other field and adds no other key |
| `Schemas.AcceptsIff` | src/mongo/mongo2info.cpp:246-251 | for distinct keys a reader's counter test passes if and only if every recognised field has its type and every required key is present, or, for a proxy, exactly two are missing |
| `Schemas.ScanCounts` | src/mongo/mongo2info.cpp:70-244 | the counter is the number of distinct required keys seen |
| `Schemas.RequiredSize` | src/mongo/mongo2info.cpp:51-51 | the constant a reader compares with is the number of its required keys |
| `Schemas.AcceptsPermuted` | src/mongo/mongo2info.cpp:456-636 | acceptance and the table the values are read from do not depend on the order of the fields |
| `SchemaFields.CatchupFields` | src/mongo/mongo2info.cpp:273-453 | the catchup reader accepts a document if and only if every stream field is right and it has a tvg id and two dates |
| `SchemaFields.ChannelFields` | src/mongo/mongo2info.cpp:470-635 | the channel reader, for all types but proxy: every stream field is right and there is a tvg id |
| `SchemaFields.VodFields` | src/mongo/mongo2info.cpp:51-251 | the vod reader, for all types but vod proxy: every stream field and every movie field is right |
| `SchemaFields.SerialFields` | src/mongo/mongo2info.cpp:638-744 | the serial reader: six fields of their types, visible and episodes if they are there |
| `SchemaFields.RequestFields` | src/mongo/mongo2info.cpp:746-801 | the request reader: an id, a title, a type and a status |
| `SchemaFields.ProxyAccepted` | src/mongo/mongo2info.cpp:246-251 | a channel of class proxy and a vod of class vod proxy may lack exactly two required fields, or none |
| `Schemas.RequiredTyped` | src/mongo/mongo2info.cpp:273-453 | a required field of an accepted document is there with its type |
| `Schemas.OverwrittenAccepted` | src/mongo/mongo2info.cpp:70-244 | overwriting a field of an accepted document keeps it accepted if and only if the new value has the type of the field |
| `Schemas.SetAccepted` | src/mongo/mongo2info.cpp:70-244 | setting a field to a value of its type: acceptance stays if the field was there with its type; if it was missing, the document is accepted if and only if it then lacks nothing, or, for a proxy, exactly two fields |
| `FieldValues.FoldIsLookup` | src/mongo/mongo2info.cpp:70-244 | a loop that updates locals field by field computes the by-key lookups when each step does |
| `FieldValues.VodFold` | src/mongo/mongo2info.cpp:70-244 | the loop over a vod document computes its values by key |
| `FieldValues.CatchupFold` | src/mongo/mongo2info.cpp:294-443 | the loop over a catchup document computes its values by key, whatever the dates start with |
| `FieldValues.ChannelFold` | src/mongo/mongo2info.cpp:489-622 | the loop over a channel document computes its values by key |
| `FieldValues.SerialFold` | src/mongo/mongo2info.cpp:661-735 | the loop over a serial document computes its values by key |
| `InfoValues.BaseValues` | src/mongo/mongo2info.cpp:70-244 | each number and flag of a stream is the value stored under its key or the default; the four values of the user come from his entry |
| `InfoValues.BaseLists` | src/mongo/mongo2info.cpp:70-244 | groups, parts and meta urls are read from the arrays stored under their keys |
| `InfoValues.ChannelValues` | src/mongo/mongo2info.cpp:294-443 | channels and catchups share base and epg; the two dates are stored under their keys |
| `InfoValues.TextsRead` | src/mongo/mongo2info.cpp:82-96 | a list of texts is read as it stands |
| `InfoValues.EpgValues` | src/mongo/mongo2info.cpp:489-622 | name, tvg id, logo and urls of a channel by their keys |
| `InfoValues.MovieValues` | src/mongo/mongo2info.cpp:70-244 | the ten values of a movie by their keys |
| `InfoValues.SerialValues` | src/mongo/mongo2info.cpp:661-735 | the values of a serial by their keys |
| `InfoValues.SerialLists` | src/mongo/mongo2info.cpp:661-735 | groups and episodes are read from the arrays stored under their keys |
| `InfoValues.RequestValues` | src/mongo/mongo2info.cpp:757-793 | the four values of a content request by their keys |
| `InfoValues.MetaRead` | src/mongo/mongo2info.cpp:161-192 | a meta url is read if its name stands before its url; the other way round the url is lost |
| `Readers.ReadFields` | src/mongo/mongo2info.cpp:70-244 | the shared loop returns the counter, or none after a field of a wrong type, and the folded values |
| `Readers.MakeVodInfo` | src/mongo/mongo2info.cpp:37-257 | succeeds exactly on accepted documents and then returns the values stored under each key |
| `Readers.MakeCatchupInfo` | src/mongo/mongo2info.cpp:259-454 | succeeds exactly on accepted catchup documents and then returns the values stored under each key, including the two dates that start uninitialised |
| `Readers.MakeChannelInfo` | src/mongo/mongo2info.cpp:456-636 | succeeds exactly on accepted channel documents and then returns the values stored under each key |
| `Readers.MakeSerialInfo` | src/mongo/mongo2info.cpp:638-744 | succeeds exactly on accepted serial documents and then returns the values stored under each key; the season is never the uninitialised local |
| `Readers.MakeContentRequestInfo` | src/mongo/mongo2info.cpp:746-801 | succeeds exactly on accepted content requests and then returns the values stored under each key, never the uninitialised locals |
| `Urls.GetOutputUrlData` | src/mongo/mongo2info.cpp:874-921 | fails on anything but an array; else reads the well-formed elements in order |
| `Urls.CreateOutputUrl` | src/mongo/subscribers_manager.cpp:154-191 | appends one output field with the urls in order |
| `Urls.OutputRoundTrip` | src/mongo/subscribers_manager.cpp:154-191 | reading what was written gives the same list if and only if every url and directory is canonical |
| `Urls.CreateCatchupOutputUrl` | src/mongo/subscribers_manager.cpp:193-216 | the same ids in order, moved to the catchup host, returned and written |
| `Urls.CatchupUrlInjective` | src/mongo/subscribers_manager.cpp:204-206 | two catchup urls are equal only for the same catchup id and output id, ids holding no slash |
| `Urls.OutputsMoved` | src/mongo/subscribers_manager.cpp:193-216 | every output of a catchup keeps its id and hls type and has the url of its own path on the catchup host, and the root made for that path if there is one |
| `Urls.CatchupUrlsApart` | src/mongo/subscribers_manager.cpp:204-206 | no two outputs of catchups share a url unless catchup id and output id agree, if url parsing keeps urls apart |
| `Urls.InputsRead` | src/mongo/subscribers_manager.cpp:2055-2061 | the inputs of a catchup are the ids and urls of the outputs it records |
| `Urls.UrlClasses` | src/mongo/subscribers_manager.cpp:113-191 | written urls carry the class of their kind |
| `Urls.PostfixDirInjective` | src/mongo/subscribers_manager.cpp:204-204 | two catchup directories are equal only for the same catchup id and output id |
| `Urls.DecimalValue` | src/mongo/subscribers_manager.cpp:204-204 | a printed number consists of digits and reads back as the number |
| `Urls.CreateInputUrl` | src/mongo/subscribers_manager.cpp:113-152 | appends one input field with ids and urls in order |
| `StreamClasses.CatchupClass` | src/mongo/subscribers_manager.cpp:77-107 | the class stored in new catchups is read back as the type catchup |
| `StreamClasses.RecognisedByName` | src/mongo/subscribers_manager.cpp:77-107 | a class is recognised by the name behind the common prefix, an unknown name is taken for a proxy |
| `UserEntries.MakeUserStreamInfo` | src/mongo/subscribers_manager.cpp:228-247 | the five cursor searches in a row give the forward-only walk |
| `UserEntries.UserInfoMeaning` | src/mongo/subscribers_manager.cpp:228-247 | each value is the stored one if it and all asked for before it stand in that order, else the default |
| `UserEntries.UserInfoByKey` | src/mongo/subscribers_manager.cpp:228-247 | with all five in the order asked for, the walk agrees with lookup by key |
| `UserEntries.AbsentBreaksOrder` | src/mongo/subscribers_manager.cpp:228-247 | a missing field hides every field asked for later |
| `UserEntries.WithoutLocked` | src/mongo/subscribers_manager.cpp:278-324 | without `locked` the last two values are always the default |
| `UserEntries.NewEntryFields` | src/mongo/subscribers_manager.cpp:278-324 | an entry the service adds is for the stream, with all flags off and no times; only a catchup carries a class |
| `UserUpdates.PositionalFrame` | src/mongo/subscribers_manager.cpp:1349-1377 | a positional set changes one field of the first entry with the sid and nothing else: other entries, order, length and other arrays stay |
| `EntryWrites.SetterSets` | src/mongo/subscribers_manager.cpp:1349-1377 | a setter writes the first entry for the stream in vods for the three vod types, in catchups for catchups and in streams for all others, one field of it, and nothing else in the database |
| `EntryWrites.SetterChecks` | src/mongo/subscribers_manager.cpp:1320-1347 | the errors of the setters in their order; a missing user or a refused write is no error and changes nothing |
| `EntryWrites.RecentSets` | src/mongo/subscribers_manager.cpp:1413-1444 | SetRecent sets the viewing time in that entry and raises the view count of the stream by one, unless the server refuses that |
| `UserUpdates.FavoriteShown` | src/mongo/subscribers_manager.cpp:1349-1377 | a favorite that is set is read back exactly if it is false, or was absent, or stands behind the sid |
| `UserUpdates.RecentShown` | src/mongo/subscribers_manager.cpp:1413-1439 | the exact condition for a viewing time to be read back |
| `UserUpdates.InterruptionShown` | src/mongo/subscribers_manager.cpp:1479-1508 | the exact condition for an interruption time to be read back |
| `UserUpdates.PushedEntryUpdates` | src/mongo/subscribers_manager.cpp:278-324 | on entries the service added a favorite is shown, the two times never are |
| `UserUpdates.ViewCountConserved` | src/mongo/subscribers_manager.cpp:1441-1444 | over any run of SetRecent calls a view count is its start value plus the increments that took effect |
| `UserUpdates.CountedStaysReadable` | src/mongo/subscribers_manager.cpp:1441-1444 | whether a vod, catchup or channel is acceptable after a counted view, for every counter it may have had: a 32-bit one below the maximum changes nothing; one at the maximum, a 64-bit or a floating one makes it unreadable; a missing one makes it acceptable if and only if nothing else was missing, or, for a proxy, two others were |
| `UserUpdates.FirstViewHidesProxy` | src/mongo/subscribers_manager.cpp:1441-1444 | a readable stream without a counter is a proxy that lacks exactly two fields, and its first view makes it unreadable |
| `UserUpdates.PulledOnce` | src/mongo/subscribers_manager.cpp:352-363 | a pull succeeds if and only if the catchups are a list or absent; it keeps the others in order, leaves no entry for the id, and repeated it changes nothing |
| `Devices.AcceptedIff` | src/mongo/subscribers_manager.cpp:764-858 | a login is accepted if and only if the account is active with that password and not expired, the device is known and not banned, and nobody is connected from it |
| `Devices.ListedCanLogin` | src/mongo/subscribers_manager.cpp:638-669 | every device ClientActivate lists can log in with the same password while the account lasts and the device is free, and is then activated |
| `Devices.DecisionIsStatus` | src/mongo/subscribers_manager.cpp:801-845 | the element that decides is the one the positional write touches, and the write is made exactly for status not active |
| `Devices.ActivatedStatus` | src/mongo/subscribers_manager.cpp:834-845 | the write sets the status of that device and no other, and keeps ids unique |
| `Devices.StatusesOnlyActivate` | src/mongo/subscribers_manager.cpp:801-858 | in every interleaving of logins with failing writes every status only moves from not active to active; banned devices stay banned |
| `Devices.ChangeHasLogin` | src/mongo/subscribers_manager.cpp:801-858 | in every interleaving, a status that changed has an accepted login of that user from that device earlier in the run |
| `Devices.RejectedRun` | src/mongo/subscribers_manager.cpp:764-858 | a run in which every login is rejected ends in the state it began in |
| `Devices.NeverListedAgain` | src/mongo/subscribers_manager.cpp:638-669 | a device whose activation was written is never listed again, whatever logins follow |
| `Devices.ListDevices` | src/mongo/subscribers_manager.cpp:638-661 | the loop lists the named, not active devices in order |
| `Devices.ListedExactly` | src/mongo/subscribers_manager.cpp:645-662 | the list holds the id and name of every element with an object id, the 32-bit status not active and a text name, as often as they occur and in their order, and nothing else |
| `Devices.ActivateIff` | src/mongo/subscribers_manager.cpp:607-668 | ClientActivate succeeds if and only if the account is active with that password and has such an element |
| `Devices.FirstFailure` | src/mongo/subscribers_manager.cpp:764-858 | of the ten checks of a login in their order, a rejected login is answered with the error of the first that fails; if none fails it is accepted, with an activation exactly for status not active |
| `Devices.FindDevice` | src/mongo/subscribers_manager.cpp:801-858 | the loop finds the first element with that id and a status, or else whether there was any device |
| `Logins.LoginByIff` | src/mongo/subscribers_manager.cpp:720-858 | a login by email is accepted if and only if the account has an expiry date that has not passed, is active with that password, the device is known and not banned, and nobody is connected from it; it then carries the id, email and expiry date of the user and the password and device he named |
| `Logins.LoginByIdIff` | src/mongo/subscribers_manager.cpp:672-718 | the same for the http login, which also needs non-empty arguments, a stored user and an email |
| `Logins.LoginReplyIff` | src/subscribers/handler.cpp:281-294 | the handler succeeds exactly when the user may log in and the answer was sent |
| `Logins.LoginError` | src/mongo/subscribers_manager.cpp:764-858 | a rejected login is answered with a missing expiry date or with the first check that fails |
| `Logins.LoginWrites` | src/mongo/subscribers_manager.cpp:834-845 | an accepted login leaves the device active unless the write is refused, and changes no other device, user or collection; a rejected one writes nothing |
| `Catalogue.ResolveEntry` | src/mongo/subscribers_manager.cpp:898-916 | an entry resolves to the stream of its first sid and the flags behind it, or is skipped |
| `Catalogue.ReadChannels` | src/mongo/subscribers_manager.cpp:887-933 | the loop fills the two lists with the listed entries of each private flag, in order |
| `Catalogue.ReadVods` | src/mongo/subscribers_manager.cpp:935-980 | the loop fills the two lists with the accepted vods of each private flag, in order, visible or not |
| `Catalogue.ReadCatchups` | src/mongo/subscribers_manager.cpp:982-1022 | catchups go into one list whatever their flag |
| `Catalogue.PartitionKeepsOrder` | src/mongo/subscribers_manager.cpp:887-980 | merging the two lists by the flags gives back all listed entries in order; nothing is lost or doubled |
| `Catalogue.ChannelListedIff` | src/mongo/subscribers_manager.cpp:915-925 | a channel is listed if and only if its document is well typed, complete up to the proxy exception, and visible |
| `Catalogue.CountSerialViews` | src/mongo/subscribers_manager.cpp:1038-1048 | the view count is the sum, wrapped to 64 bits, over the episodes of the first serial vod with that id |
| `CatalogueContents.EpisodeCounts` | src/mongo/subscribers_manager.cpp:1043-1048 | an episode counts with the views of the first vod of the serial kind with its id |
| `CatalogueContents.EpisodeMissing` | src/mongo/subscribers_manager.cpp:1043-1048 | an episode without such a vod counts nothing |
| `CatalogueContents.SumsAdd` | src/mongo/subscribers_manager.cpp:1042-1049 | views of two lists of episodes add up |
| `CatalogueContents.OneEpisode` | src/mongo/subscribers_manager.cpp:1042-1049 | a list of one episode counts what the episode counts, an empty list nothing |
| `CatalogueContents.SumIgnoresOthers` | src/mongo/subscribers_manager.cpp:1045-1045 | vods of another kind change no count |
| `CatalogueContents.PrivateVodsIgnored` | src/mongo/subscribers_manager.cpp:1040-1040 | users with the same public vods are shown the same series, whatever their private vods |
| `Catalogue.ReadSeries` | src/mongo/subscribers_manager.cpp:1024-1057 | the listed series in order, each with its view count |
| `Catalogue.ReadRequests` | src/mongo/subscribers_manager.cpp:1059-1078 | the readable content requests in order |
| `CatalogueContents.ChannelContents` | src/mongo/subscribers_manager.cpp:887-933 | each of the two lists of channels holds exactly the entries with that private flag whose stream is stored with a class, reads as a channel and says that it is visible, in their order, each with the values of its stream and of the flags behind its sid |
| `CatalogueContents.VodContents` | src/mongo/subscribers_manager.cpp:935-980 | the same for the vods, visible or not |
| `CatalogueContents.CatchupContents` | src/mongo/subscribers_manager.cpp:982-1022 | the same for the catchups, private or not |
| `CatalogueContents.SeriesContents` | src/mongo/subscribers_manager.cpp:1024-1057 | the series are exactly the links to readable serials, in order, each with the views of its stored episodes in the public vods, wrapped to 64 bits |
| `CatalogueContents.RequestContents` | src/mongo/subscribers_manager.cpp:1059-1078 | the content requests are exactly the links to readable requests, in order |
| `Favorites.ChannelFavorite` | src/mongo/subscribers_manager.cpp:1320-1381 | SetFavorite on a channel and then ClientGetChannels: if the entry is listed, one element of the public or the private list, at the place of the entry, gets the favorite that is read back; the rest of the seven lists is the same |
| `Favorites.VodFavorite` | src/mongo/subscribers_manager.cpp:1320-1381 | the same for a vod; the view counts of the series stay |
| `Favorites.CatchupFavorite` | src/mongo/subscribers_manager.cpp:1320-1381 | the same for a catchup, in the one list of catchups |
| `Favorites.ChangeShown` | src/mongo/subscribers_manager.cpp:1320-1381 | the favorite read back is the one that was set, unless it is true and an older one stands before the sid |
| `Favorites.NothingSet` | src/mongo/subscribers_manager.cpp:1320-1381 | with a failed check, no entry, no such user or a refused write the database stays as it is |
| `Favorites.SameSeries` | src/mongo/subscribers_manager.cpp:1038-1048 | favorites do not enter the view counts of the series |
| `Favorites.FavoriteResolved` | src/mongo/subscribers_manager.cpp:915-925 | that entry resolves as before but for the favorite |
| `Favorites.FavoriteListed` | src/mongo/subscribers_manager.cpp:915-925 | the favorite goes into what is listed and into nothing else |
| `Resolver.FindDirectoryOrUrl` | src/mongo/subscribers_manager.cpp:1093-1318 | the three scans resolve the first entry with the sid in streams, vods and catchups and only that; on success exactly one of directory and url is set, on error neither |
| `Resolver.LookupBySections` | src/mongo/subscribers_manager.cpp:1118-1318 | the first entry over the three arrays in a row is found by three scans |
| `Resolver.SucceedsIff` | src/mongo/subscribers_manager.cpp:1093-1318 | a proxy or catchup is served if and only if an output has the channel id, any other stream if and only if the first such output has an http root |
| `Resolver.ServedHereIff` | src/mongo/subscribers_manager.cpp:1276-1302 | a directory is answered exactly if the first output with the id has a root that exists and the stream is neither a proxy nor a catchup made on request |
| `ResolverTypes.StreamServed` | src/mongo/subscribers_manager.cpp:1145-1169 | the answer for an entry among the streams: a proxy gets the url of the first output with the channel id, root or no root; any other type needs a root and gets the directory if it exists here, else the url |
| `ResolverTypes.VodServed` | src/mongo/subscribers_manager.cpp:1211-1235 | the same for an entry among the vods, where only a vod proxy gets the url without a root |
| `ResolverTypes.CatchupServed` | src/mongo/subscribers_manager.cpp:1277-1304 | an entry among the catchups is always answered: proxies of either kind and the four types made on request with the url, all others with the directory if there is a root that exists here, else the url |
| `ResolverTypes.NothingServed` | src/mongo/subscribers_manager.cpp:1139-1172 | without an entry, a stored stream, a class or an output with the id the answer is the error for the first of these that is missing |
| `Resolver.PlaceIsOutput` | src/mongo/mongo2info.cpp:803-872 | what is answered belongs to an output of the stream with the channel id |
| `Resolver.RedirectsIntoCatalogue` | src/mongo/subscribers_manager.cpp:1150-1170 | a url a channel request is redirected to is one the catalogue lists for that channel |
| `Resolver.GetHttpRootFromStream` | src/mongo/mongo2info.cpp:803-840 | the root of the first output with the id, in the first output field |
| `Resolver.GetUrlFromStream` | src/mongo/mongo2info.cpp:842-872 | the url of that output |
| `CatchupDocs.BuildDoc` | src/mongo/subscribers_manager.cpp:2024-2090 | the appends in their order give the 28 fields of a new catchup |
| `CatchupDocs.NewDocAccepted` | src/mongo/mongo2info.cpp:259-454 | the catchup reader counts exactly 12 in a new document and accepts it |
| `CatchupDocs.NewDocRead` | src/mongo/subscribers_manager.cpp:2020-2090 | a new document is read back with the id, title, tvg id, logo, iarc, flags, moved outputs and dates it was made from, view count 0, and no groups, parts or meta urls |
| `CatchupDocs.NewDocRecords` | src/mongo/subscribers_manager.cpp:2024-2090 | a new catchup is created now, records the outputs of the channel between the two dates and ends after the full seconds between them |
| `CatchupDocs.NewDocSettings` | src/mongo/subscribers_manager.cpp:2048-2088 | the settings every recording gets |
| `CatchupDocs.RefoundAgrees` | src/mongo/subscribers_manager.cpp:1914-1922 | what later requests get agrees with what the creating request got, up to groups, parts, meta urls and user flags, and with the two flags swapped; the flags agree if and only if the channel has both or neither |
| `CatchupCache.PushPartsAccepted` | src/mongo/subscribers_manager.cpp:2098-2106 | linking a part changes no reader's verdict on the stream |
| `CatchupCache.InsertStage` | src/mongo/subscribers_manager.cpp:2092-2096 | an insert under a fresh id keeps every cache as it was |
| `CatchupCache.LinkStage` | src/mongo/subscribers_manager.cpp:2098-2106 | linking a catchup to a stream none of whose parts serves the same request keeps parts apart and only appends |
| `CatchupCalls.CreateKeeps` | src/mongo/subscribers_manager.cpp:2020-2121 | whatever the writes do no stream gets two parts for one request, and a reported creation is what the request finds from then on |
| `CatchupRuns.NoTwoParts` | src/mongo/subscribers_manager.cpp:1908-2121 | over every run of requests, views and changes of users, by any users and with any write failing, no stream ever has two parts for one request and no part starts or stops serving one, if at the start no viewable part lacks just its counter and no counter is within the number of views of leaving 32 bits |
| `CatchupSurvival.SurvivesIff` | src/mongo/subscribers_manager.cpp:1441-1444 | that condition is exact: for k up to 2^31-1 and a database without two parts for one request, parts keep what they serve in every run with at most k views of each stream if and only if it holds |
| `CatchupSurvival.ViewedPartIntrudes` | src/mongo/subscribers_manager.cpp:1441-1444 | one view of a part that lacks just its counter and stands before the one a request finds: the stream then has two parts for the request, and the request finds the other one |
| `CatchupSurvival.FullCounterForgets` | src/mongo/subscribers_manager.cpp:1441-1444 | one view of a cached catchup whose counter is at its maximum: the request for it finds nothing any more |
| `CatchupRuns.CachedForever` | src/mongo/subscribers_manager.cpp:1924-1971 | the catchup a request finds stays the one it finds in every later state of every run |
| `CatchupRuns.ServedFromCache` | src/mongo/subscribers_manager.cpp:1924-1971 | a request that finds a catchup returns its id with nothing created and nothing written, for every user and whatever the endpoint |
| `CatchupRuns.AnsweredAgain` | src/mongo/subscribers_manager.cpp:1924-1971 | once a request was answered, every later request for the same stream, title and dates by any user who has the stream returns that id, creates nothing and writes nothing |
| `CatchupRuns.AnnouncedOnce` | src/subscribers/handler.cpp:542-567 | at most one CatchupCreated is sent for each stream, title and dates over any run from such a database |
| `CatchupAnnouncements.LostForGoodIff` | src/subscribers/handler.cpp:545-564 | a request that has to create its catchup is not announced, and no later request ever is in any run, if and only if its insert was reported and the push to the stream not refused, but that push, the one to the server or the one to the user was not reported or met no list |
| `CatchupAnnouncements.NoteLost` | src/subscribers/handler.cpp:545-564 | a database with one stream, one server and one user in which a refused push to the server loses the announcement for good |
| `CatchupRequests.AnnouncedIff` | src/subscribers/handler.cpp:555-564 | a request that has to create its catchup is announced if and only if all four writes are reported and the user's catchups are a list or absent |
| `CatchupRequests.LinkedIff` | src/mongo/subscribers_manager.cpp:2092-2112 | its catchup is linked to the stream if and only if the insert is reported and the push to the stream is not refused; otherwise stream, servers and users stay as they were |
| `CatchupRequests.RequestSucceedsIff` | src/subscribers/handler.cpp:542-567 | for every outcome of the writes: a request succeeds if and only if the user has the stream and it reads as a channel, the catchup is cached or all checks before the writes pass and the three writes are reported, and the write to the user is reported and meets a list or nothing |
| `CatchupOutcomes.ServedIff` | src/mongo/subscribers_manager.cpp:1513-1565 | a request succeeds if and only if some entry of the streams of the user has the sid, the stream is stored with a class of none of the three vod types and reads as a channel, some part with that title and those dates reads as a catchup or the endpoint, the first server with the stream and its outputs allow to create one and the three writes are reported, and the write to the user is reported and meets a list or nothing |
| `CatchupOutcomes.StrangerRefused` | src/mongo/subscribers_manager.cpp:1534-1537 | a user without an entry for the stream is answered stream not found, nothing is written and nobody is told |
| `CatchupOutcomes.RefusedUntouched` | src/mongo/subscribers_manager.cpp:1973-2022 | a request that fails before its first write leaves the database as it is; which of the errors it is answered with |
| `CatchupOutcomes.AnnouncedLeaves` | src/mongo/subscribers_manager.cpp:2092-2121 | after an announced request the catchup is stored, the last part of the stream and the last stream of the first server that runs the stream; the note names that server, the answer names the catchup with the title and dates asked for, and nothing else changed but the user |
| `CatchupOutcomes.FoundLeaves` | src/mongo/subscribers_manager.cpp:1924-1971 | a request served without an announcement changed nothing but the user and answers with what the first matching part reads as |
| `CatchupRequests.RequestRead` | src/mongo/subscribers_manager.cpp:1880-1902 | a new content request is accepted by its reader and read back as the info that was answered |
| `CatchupOutcomes.RequestIff` | src/mongo/subscribers_manager.cpp:1868-1906 | a content request succeeds if and only if a user is named, both writes are reported, and his requests are a list or absent |
| `CatchupOutcomes.RequestLeaves` | src/mongo/subscribers_manager.cpp:1880-1902 | it is then stored with its title, type and status, is the last request of the user, and nothing else changed |
| `CatchupOutcomes.RequestStored` | src/mongo/subscribers_manager.cpp:1880-1888 | each value of the request stands under its key, with the class of requests |
| `CatchupRuns.SetsAllowed` | src/mongo/subscribers_manager.cpp:1320-1511 | the setters of user entries and the activation of a device are among the changes of users the runs allow |
| `CatchupRuns.EntriesAllowed` | src/mongo/subscribers_manager.cpp:1814-1866 | adding and removing entries are, too |
| `CatchupUndo.RunAdds` | src/mongo/subscribers_manager.cpp:1841-1866 | a run of requests by any users appends to the catchups of a user one entry for each of his requests that was served and whose push took effect, in order |
| `CatchupUndo.UndoAfterRun` | src/mongo/subscribers_manager.cpp:352-363 | after any such run one undo that succeeds removes every entry for the id and keeps all others, old and added, in order; a second changes nothing; it succeeds if and only if the catchups were a list or absent at the start |
| `CatchupUndo.UndoRestores` | src/mongo/subscribers_manager.cpp:352-363 | if the requests all led to one catchup the user did not have, the undo restores the list he had |
| `CatchupUndo.RunRequests` | src/mongo/subscribers_manager.cpp:1880-1906 | a run of requests by any users appends to the content requests of a user the ids of those of his that were stored and linked, in order |
| `CatchupLinks.NoDanglingLinks` | src/mongo/subscribers_manager.cpp:2092-2112 | in every state of every run each part, server link and request link that was not there at the start points to a stored document, and a catchup linked to a server is a part of a stream of that server |
| `CatchupLinks.WritesLinked` | src/mongo/subscribers_manager.cpp:2092-2112 | one creation stopped after any of its writes leaves no dangling link |
| `CatchupLinks.RequestLinked` | src/mongo/subscribers_manager.cpp:1880-1902 | a content request stopped after either of its writes leaves no dangling link |
| `CatchupListing.GeneratedIsListed` | src/subscribers/handler.cpp:542-567 | after a successful request the user has one entry more, at the end, which the catalogue shows with the id of the answer and the title and dates of the request unless the stored catchup has no class; a created one has |
| `Subscribers.SubscriberInfo.SetLogin` | src/base/subscriber_info.cpp:31-33 | stamps the login |
| `Subscribers.SubscriberInfo.SetCurrentStreamID` | src/base/subscriber_info.cpp:23-25 | sets the current stream |
| `Manager.SubscribersManager.RegisterInnerConnectionByHost` | src/mongo/subscribers_manager.cpp:517-529 | the connection is stamped, entered and announced; a connection without a login leaves table and log consistent, and no device doubled if its device was free |
| `Manager.SubscribersManager.UnRegisterInnerConnectionByHost` | src/mongo/subscribers_manager.cpp:531-559 | the first occurrence is erased, an empty bucket dropped, the observer told; a member leaves table and log consistent and is gone |
| `Manager.SubscribersManager.GetOnlineSubscribers` | src/mongo/subscribers_manager.cpp:406-420 | the result holds exactly what each registered connection shows, once |
| `Manager.SubscribersManager.GetAndUpdateOnlineUserByStreamID` | src/mongo/subscribers_manager.cpp:575-587 | the number of registered connections with that current stream |
| `Manager.SubscribersManager.ClientActivate` | src/mongo/subscribers_manager.cpp:589-670 | the devices that can be activated, or the error of the first failing check |
| `Manager.SubscribersManager.ClientLoginImpl` | src/mongo/subscribers_manager.cpp:764-858 | the decision on user, password, expiry, device and busy device; the database changes exactly by the activation it calls for |
| `Manager.SubscribersManager.ClientLogin` | src/mongo/subscribers_manager.cpp:720-762 | for the user with that email the answer and the activation the decision calls for; no user or no expiry date is an error that changes nothing; on success the device was free |
| `Manager.SubscribersManager.ClientLoginById` | src/mongo/subscribers_manager.cpp:672-718 | the same for a user id; empty arguments, no such user, no email or no expiry date are errors that change nothing; the database stays valid |
| `Manager.SubscribersManager.ClientGetChannels` | src/mongo/subscribers_manager.cpp:861-1091 | the seven lists of the user with that email, or user not found |
| `Manager.SubscribersManager.ClientFindHttpDirectoryOrUrlForChannel` | src/mongo/subscribers_manager.cpp:1093-1318 | the resolver for the user with that email |
| `Manager.SubscribersManager.SetFavorite` | src/mongo/subscribers_manager.cpp:1320-1381 | one positional set in the array chosen by the stream type; a failed write is not an error |
| `Manager.SubscribersManager.SetRecent` | src/mongo/subscribers_manager.cpp:1383-1447 | one positional set of the viewing time in the array chosen by the stream type, then one view more for the stream; failed writes are not errors |
| `Manager.SubscribersManager.SetInterruptTime` | src/mongo/subscribers_manager.cpp:1449-1511 | one positional set of the interruption time in the array chosen by the stream type; a failed write is not an error |
| `Manager.SubscribersManager.FindStream` | src/mongo/subscribers_manager.cpp:1513-1565 | the channel of a user's stream, or the error of the first failing check |
| `Manager.SubscribersManager.FindCached` | src/mongo/subscribers_manager.cpp:1924-1971 | the first part that matches and is accepted, read without user flags |
| `Manager.SubscribersManager.PrepareCatchup` | src/mongo/subscribers_manager.cpp:1973-2022 | everything that is checked before the first write |
| `Manager.SubscribersManager.CreateOrFindCatchup` | src/mongo/subscribers_manager.cpp:1908-2121 | database and reply after finding or creating, for every fate of the writes |
| `Manager.SubscribersManager.WriteCatchup` | src/mongo/subscribers_manager.cpp:2092-2112 | the three writes, each made only if the one before it was reported as done |
| `Manager.SubscribersManager.CreateCatchup` | src/mongo/subscribers_manager.cpp:1674-1704 | finds the stream of the user or reports why not, then creates or finds, for every fate of the writes |
| `Manager.SubscribersManager.AddUserCatchup` | src/mongo/subscribers_manager.cpp:1841-1866 | the entry is appended to the catchups of the user unless the write is refused; an error exactly if the write was not reported as done |
| `Manager.SubscribersManager.RemoveUserCatchup` | src/mongo/subscribers_manager.cpp:1814-1839 | every entry for the catchup is pulled unless the write is refused; an error exactly if the write was not reported as done |
| `Manager.SubscribersManager.CreateRequestContent` | src/mongo/subscribers_manager.cpp:1868-1906 | insert, then link to the user, for every fate of the writes |
| `Handlers.SubscribersHandler.HandleRequestClientLogin` | src/subscribers/handler.cpp:264-299 | for the user with that email: the error of the login, or that the answer was not sent, or success; on success and only then the connection carries that login, is entered under the user and one Connected event is sent; the activation is written either way; a connection without a login leaves the table consistent and no device doubled |
| `Handlers.SubscribersHandler.HandleRequestClientGetRuntimeChannelInfo` | src/subscribers/handler.cpp:375-409 | replies with the count before the client moves; the client then watches the new stream instead of the old one |
| `Handlers.SubscribersHandler.HandleRequestGenerateCatchup` | src/subscribers/handler.cpp:516-571 | find or create, add to the user, announce only what was created; an error ends the request |
| `Handlers.SubscribersHandler.HandleRequestUndoCatchup` | src/subscribers/handler.cpp:573-610 | an undo succeeds exactly if the write is reported and meets a list or nothing; the user is then left with all entries but those for the catchup, in order |
| `Handlers.SubscribersHandler.Closed` | src/subscribers/handler.cpp:62-71 | a registered connection leaves the table, which stays consistent, and one Disconnected event is sent |
| `Handlers.HttpHandler.LoginAndRegister` | src/http/handler.cpp:154-171 | the answer is that of the login by id; on success and only then the connection carries the login, is entered under the user and one Connected event is sent; the activation is written |
| `Handlers.HttpHandler.EnsureLogin` | src/http/handler.cpp:152-172 | a connection with a login keeps it and nothing is written; another one gets the answer of the login by id and on success carries it, is entered under the user and announced; the table stays consistent and no device is doubled; emails and entries of all users stay |
| `Handlers.HttpHandler.ProcessReceived` | src/http/handler.cpp:141-276 | too few tokens end the request before anything else; a connection without a login logs in or is answered the error of the login; then a bad channel id is an error, else the answer is the resolver's for the account of the connection; the current stream is set exactly when a redirect was sent, or a file on GET; the table stays consistent and no device is doubled |

## Left out

- Sockets, event loops, timers, JSON-RPC, HTTP parsing and headers, opening files: whether an answer, or the file, could be sent is a parameter of the handlers; a request with an invalid url is one without tokens, and methods other than GET and HEAD are left out.
- The database driver: reads are reliable, a write has one of three outcomes, a query by email or id finds the stored document, `$` touches the first match, `$pull` removes all matches, `$inc` follows the numeric type.
- Url and path parsing, object id generation and hex conversion: parameters or freshness conditions; an id is refused only when it is empty, as in the conversion function.
- The "not connected" and argument validity checks at the start of the manager's calls, except those on empty ids.
- Re-login on a logged-in subscriber connection keeps no invariant; the exact condition is stated instead.
- AddUserStream: it pushes the user id instead of the stream id (src/mongo/subscribers_manager.cpp:1752) and no handler calls it.
- The other add and remove helpers for vods and streams, FindVod and FindCatchup: copies of the modelled ones.
- The user flags in a stream found by FindStream are modelled as the code reads them, from the whole user document; nothing says that they are the user's flags.
- The user agent of catchup inputs: never set for the inputs of a new catchup.
- The order in which the channel constructor takes the audio and video flags is not visible; the readers pass video first, and the model takes that as the order.
- The writes of one request are not interleaved with other catchup requests: one loop serves them all.
- LoginProtocol does not model when the logins are read from the database; a check step may be made for any login.
- LoginProtocol takes the scan of the table that counts watchers as one step, although the other loop may set a stream id during the scan.
- CatchupRuns.NoTwoParts, CachedForever, AnsweredAgain and AnnouncedOnce hold from databases in which no view can change a reader's verdict on a part; for all others `CatchupSurvival.SurvivesIff` says that some run breaks the cache.
- CatchupUndo runs hold requests only: calls that set a field of an entry keep the entries and their order (`UserUpdates.PositionalFrame`) and are not interleaved there.
- SendSubscriberNotification, server info, client info, ping: single lookups.
- The other fields of the statistics, license checks, configuration and daemon commands.
