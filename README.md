# IOTA binding and io add-on: a verified model

This project models the core of the Eclipse SmartHome IOTA add-ons in Dafny. The add-ons
publish item states to MAM (Masked Authenticated Messaging) streams on the IOTA Tangle and read
them back into Things.

- **io bundle, publishing side.** The item state listener (`ItemStateListener`) keeps one
  "Items" batch per seed. It upserts an item's entry on every change and removes it by name. A
  debounced flush then decides what to publish: open streams are published at once. A
  restricted stream with a price first sends a handshake packet once, and publishes item data
  only after payment.
- **Stream provisioning.** The metadata listener (`IotaService`) chooses or generates the
  seed, creates or reuses the per-seed state, stores or generates the stream key, and sets up
  the payment terms.
- **Transport adapter.** `IotaUtils` builds the command lines of the publish and fetch
  scripts, threads the `start` index and seed through publish answers, and caches the last
  non-empty fetch result.
- **Wallet Thing.** The io bundle's wallet Thing (`IotaIoThingHandler`) refreshes balances and
  recognises a payment by the balance change and the transaction that caused it. On a payment
  it strips the trailing '9' padding from the payer's key, marks the stream paid, renews its
  key and releases the data.
- **Topic Thing, binding side.** The binding's topic Thing (`IotaThingHandler`) follows a
  stream from its root with at most one look-ahead, and routes each fetched batch to its
  channels (`ChannelRouter`). A channel claims at most one record: the first whose topic
  matches ignoring case, or the first one for the wildcard "ANY". Claimed records leave the
  batch.
- **Channel setup.** Both binding handlers set up their channels as `ChannelSetup` specifies:
  the transformation pattern is split, configs are built, and refresh jobs are scheduled.
- **Payments.** Both binding handlers pay for a price-gated stream through `PaymentSender`: at
  most one transfer per channel, only within the channel's threshold. On confirmation, the
  payment handler (`IotaPaymentThingHandler`) creates a topic Thing for the paid stream and
  drops the paid channel.
- **Small stateful helpers.** The two `ChannelConfig` classes, `TextValue` and
  `IotaSettings`.

Objects whose fields the source updates in place are classes whose methods state their new
state. Decisions that only compute are functions, with lemmas for the properties the code
promises. The following are parameters of the operations that use them:

- the script outputs;
- the ledger answers (`getBalances`, `findTransactionObjectsByAddresses`, `sendTransfer`);
- RSA encryption and decryption;
- `TrytesConverter`;
- the seed generator;
- the transformation services;
- the methods the code calls on the adapter but that the adapter class does not contain
  (`getNextRoot`, `checkTransactionStatus`, `startHandshake`).

Where the repository's files disagree with each other, the model follows the code that calls:

- `IotaService` uses listener getters named `getSeedToUtilsMap`, `getUidToSeedMap` and so on.
  The listener class in the repository names them `getUtilsBySeed`, `getSeedByUID` and so on.
  They are matched by meaning.
- The handlers read `root`, `key`, `threshold` and `ownkey` from the binding's
  `ChannelConfig`, which does not declare them. They are modelled as fields of that config.
  The payment channel's type id is taken to be "payment".
- `getSeedByWallet`, `getPaymentAmountByWallet`, `getRsaKeysBySeed(seed, i)`,
  `addPrivateKeyBySeed`, `addPaymentReceivedBySeed` and `getDebouncerBySeed` are called by the
  wallet Thing but are missing from the listener. They are read and written as the listener's
  maps of the same meaning.
- The listener keeps RSA keys as `BigInteger[]`, while `IotaService` stores `String[]` of
  Base64 texts. Both are modelled as opaque key texts.

Trailing-'9' stripping is modelled as written: the count never examines index 0, so a
signature made only of '9's keeps its first character (`IotaIoThingHandler.AllNinesKeepFirst`).
For a message that ends in anything else, the strip is exact
(`IotaIoThingHandler.StripsExactlyTheRun`).

## Model

| member | source | states |
|---|---|---|
| Common.ToUpper | extensions/io/org.eclipse.smarthome.io.iota/src/main/java/org/eclipse/smarthome/io/iota/mam.client.js/example/publish.js:32 | Upper-casing capitalises each ASCII letter and keeps every other character, so the length is kept; for ASCII text this is the payload upper-casing of the publish script. |
| Common.LowerOfUpper | extensions/binding/org.eclipse.smarthome.binding.iota/src/main/java/org/eclipse/smarthome/binding/iota/handler/IotaThingHandler.java:350-351 | Under ASCII case mapping, lower-casing after upper-casing gives the lower-cased original, so the reader's case-insensitive comparison sees through the publisher's upper-casing. |
| Common.UpperKeepsCaseInsensitiveEquality | extensions/binding/org.eclipse.smarthome.binding.iota/src/main/java/org/eclipse/smarthome/binding/iota/handler/IotaThingHandler.java:350-351 | Under ASCII case mapping, an upper-cased topic equals another topic ignoring case exactly when the original does. |
| Common.IndexOf | extensions/binding/org.eclipse.smarthome.binding.iota/src/main/java/org/eclipse/smarthome/binding/iota/handler/IotaThingHandler.java:164 | `indexOf(':')` returns the first position holding the character, and None exactly when the character does not occur. |
| Common.RemoveKey | extensions/binding/org.eclipse.smarthome.binding.iota/src/main/java/org/eclipse/smarthome/binding/iota/handler/IotaPaymentThingHandler.java:344-345 | `HashMap.remove` drops exactly one key and keeps every other entry's value. |
| Common.Lookup | extensions/binding/org.eclipse.smarthome.binding.iota/src/main/java/org/eclipse/smarthome/binding/iota/handler/IotaThingHandler.java:225 | `HashMap.get` is present exactly for a key of the map, with that key's value. |
| MamJson.Get | extensions/binding/org.eclipse.smarthome.binding.iota/src/main/java/org/eclipse/smarthome/binding/iota/handler/IotaThingHandler.java:291 | `JsonObject.get(key)` is present exactly when an entry has the key, and then returns a value stored under it. |
| MamJson.PublishedRecord | extensions/io/org.eclipse.smarthome.io.iota/src/main/java/org/eclipse/smarthome/io/iota/internal/IotaItemStateChangeListener.java:187-194 | An entry published by the io bundle is read back with its TOPIC present exactly when it had a Topic, and with name, topic and state upper-cased in their ASCII letters. |
| MamJson.PublishedBatch | extensions/io/org.eclipse.smarthome.io.iota/src/main/java/org/eclipse/smarthome/io/iota/internal/IotaItemStateChangeListener.java:198-210 | A published "Items" array reads back as one record per entry, in order. |
| BindingChannelConfig.InitialState | extensions/binding/org.eclipse.smarthome.binding.iota/src/main/java/org/eclipse/smarthome/binding/iota/internal/NumberValue.java:30-34 | A number codec, like a percent codec (`PercentValue.java:38`), starts at the state "0"; any other codec starts with none. |
| TextValue.TextValue.constructor | extensions/binding/org.eclipse.smarthome.binding.iota/src/main/java/org/eclipse/smarthome/binding/iota/internal/TextValue.java:26-28 | The default constructor leaves the value null. |
| TextValue.TextValue.WithText | extensions/binding/org.eclipse.smarthome.binding.iota/src/main/java/org/eclipse/smarthome/binding/iota/internal/TextValue.java:30-32 | `TextValue(text)` holds StringType(text). |
| TextValue.TextValue.Update | extensions/binding/org.eclipse.smarthome.binding.iota/src/main/java/org/eclipse/smarthome/binding/iota/internal/TextValue.java:40-43 | `update(s)` returns StringType(s), never fails, and the value afterwards is that state. |
| TextValue.LastUpdateWins | extensions/binding/org.eclipse.smarthome.binding.iota/src/main/java/org/eclipse/smarthome/binding/iota/internal/TextValue.java:40-43 | Of two updates the last one is the value, whatever the constructor was given. |
| TextValue.FreshTextValueIsEmpty | extensions/binding/org.eclipse.smarthome.binding.iota/src/main/java/org/eclipse/smarthome/binding/iota/internal/TextValue.java:26-28 | A new TextValue reports no value. |
| BindingChannelConfig.ChannelConfig.constructor | extensions/binding/org.eclipse.smarthome.binding.iota/src/main/java/org/eclipse/smarthome/binding/iota/handler/ChannelConfig.java:33-37 | Unset min, max and step default to 0, 100 and 1; unset isFloat and inverse are false; the codec is the one given, and a number or percent codec starts at the state "0" (`BindingChannelConfig.InitialState`). |
| BindingChannelConfig.ChannelConfig.ProcessMessage | extensions/binding/org.eclipse.smarthome.binding.iota/src/main/java/org/eclipse/smarthome/binding/iota/handler/ChannelConfig.java:51-59 | With a listener and an accepted payload the codec is updated and its state handed to the listener; without a listener, or when the codec rejects the payload, nothing changes. |
| BindingChannelConfig.ChannelConfig.Dispose | extensions/binding/org.eclipse.smarthome.binding.iota/src/main/java/org/eclipse/smarthome/binding/iota/handler/ChannelConfig.java:61-63 | `dispose` removes the listener. |
| BindingChannelConfig.DisposedConfigIgnoresMessages | extensions/binding/org.eclipse.smarthome.binding.iota/src/main/java/org/eclipse/smarthome/binding/iota/handler/ChannelConfig.java:61-63 | After `dispose`, a message neither reaches the listener nor sets the codec. |
| BindingChannelConfig.TextConfigForwards | extensions/binding/org.eclipse.smarthome.binding.iota/src/main/java/org/eclipse/smarthome/binding/iota/handler/ChannelConfig.java:51-55 | A text channel with a listener forwards every payload in order, and its codec holds the last one. |
| IoChannelConfig.ChannelConfig.constructor | extensions/io/org.eclipse.smarthome.io.iota/src/main/java/org/eclipse/smarthome/io/iota/handler/ChannelConfig.java:30-40 | A fresh config has no address, step 1, no codec, no channel UID and no listener. |
| IoChannelConfig.ChannelConfig.ProcessMessage | extensions/io/org.eclipse.smarthome.io.iota/src/main/java/org/eclipse/smarthome/io/iota/handler/ChannelConfig.java:42-50 | Without a listener nothing happens; with one, a null codec is a NullPointerException, a rejected payload is swallowed, and an accepted one is forwarded with the channel UID. |
| IoChannelConfig.ChannelConfig.Dispose | extensions/io/org.eclipse.smarthome.io.iota/src/main/java/org/eclipse/smarthome/io/iota/handler/ChannelConfig.java:52-54 | `dispose` removes the listener. |
| IoChannelConfig.ChannelConfig.SetAddress | extensions/io/org.eclipse.smarthome.io.iota/src/main/java/org/eclipse/smarthome/io/iota/handler/ChannelConfig.java:56-58 | `setAddress` sets the address and nothing else. |
| IoChannelConfig.ChannelConfig.SetChannelUID | extensions/io/org.eclipse.smarthome.io.iota/src/main/java/org/eclipse/smarthome/io/iota/handler/ChannelConfig.java:60-62 | `setChannelUID` sets the UID and nothing else. |
| IoChannelConfig.ChannelConfig.SetChannelStateUpdateListener | extensions/io/org.eclipse.smarthome.io.iota/src/main/java/org/eclipse/smarthome/io/iota/handler/ChannelConfig.java:64-66 | `setChannelStateUpdateListener` sets the listener and nothing else. |
| IoChannelConfig.ChannelConfig.SetValue | extensions/io/org.eclipse.smarthome.io.iota/src/main/java/org/eclipse/smarthome/io/iota/handler/ChannelConfig.java:72-74 | `setValue` sets the codec and nothing else. |
| IoChannelConfig.SettersAreIndependent | extensions/io/org.eclipse.smarthome.io.iota/src/main/java/org/eclipse/smarthome/io/iota/handler/ChannelConfig.java:56-74 | Each setter changes only its own field, and a disposed config sends nothing. |
| IotaSettings.ParseInt | extensions/io/org.eclipse.smarthome.io.iota/src/main/java/org/eclipse/smarthome/io/iota/internal/IotaSettings.java:45-49 | `Integer.parseInt` yields only 32-bit values, and a digit string within range yields its decimal value. |
| IotaSettings.NatToString | extensions/io/org.eclipse.smarthome.io.iota/src/main/java/org/eclipse/smarthome/io/iota/internal/IotaSettings.java:45-49 | The decimal text of a number is a non-empty digit string. |
| IotaSettings.NatToStringValue | extensions/io/org.eclipse.smarthome.io.iota/src/main/java/org/eclipse/smarthome/io/iota/internal/IotaSettings.java:45-49 | The decimal text of a number has that number as its value. |
| IotaSettings.ParseIntRoundTrip | extensions/io/org.eclipse.smarthome.io.iota/src/main/java/org/eclipse/smarthome/io/iota/internal/IotaSettings.java:45-49 | Parsing the text of any 32-bit integer gives the integer back. |
| IotaSettings.ParseIntRejectsLetters | extensions/io/org.eclipse.smarthome.io.iota/src/main/java/org/eclipse/smarthome/io/iota/internal/IotaSettings.java:45-49 | A port text with a non-digit after its first character raises NumberFormatException. |
| IotaSettings.IotaSettings.constructor | extensions/io/org.eclipse.smarthome.io.iota/src/main/java/org/eclipse/smarthome/io/iota/internal/IotaSettings.java:28-30 | The defaults are port 443, protocol "https" and host "nodes.testnet.iota.org". |
| IotaSettings.IotaSettings.Fill | extensions/io/org.eclipse.smarthome.io.iota/src/main/java/org/eclipse/smarthome/io/iota/internal/IotaSettings.java:38-51 | A given host or protocol replaces the current one; an Integer port is set; a text port is parsed or raises NumberFormatException with the port kept; any other or no port keeps it. |
| IotaSettings.FillWithTextPort | extensions/io/org.eclipse.smarthome.io.iota/src/main/java/org/eclipse/smarthome/io/iota/internal/IotaSettings.java:45-49 | Filling the defaults with the text of a 32-bit number sets that port and keeps host and protocol. |
| IotaUtils.PublishArgv | extensions/io/org.eclipse.smarthome.io.iota/src/main/java/org/eclipse/smarthome/io/iota/utils/IotaUtils.java:69-96 | A process is launched exactly for public or private mode, or restricted mode with a non-empty key. |
| IotaUtils.Strings | extensions/io/org.eclipse.smarthome.io.iota/src/main/java/org/eclipse/smarthome/io/iota/utils/IotaUtils.java:101 | A command line without a null element is the list of its texts. |
| IotaUtils.PublishArgvReadBack | extensions/io/org.eclipse.smarthome.io.iota/src/main/java/org/eclipse/smarthome/io/iota/utils/IotaUtils.java:70-88 | The argument positions the publish script reads are the ones `publishState` writes: provider, payload, mode, key (restricted mode only), seed, and the start index unless it is the -1 sentinel. |
| IotaUtils.PublishWithoutSeedThrows | extensions/io/org.eclipse.smarthome.io.iota/src/main/java/org/eclipse/smarthome/io/iota/utils/IotaUtils.java:101 | A launch without a seed holds a null element, which `Runtime.exec` rejects. |
| IotaUtils.FetchCommand | extensions/io/org.eclipse.smarthome.io.iota/src/main/java/org/eclipse/smarthome/io/iota/utils/IotaUtils.java:125-139 | The fetch uses fetchSync.js for refresh 0 and fetchAsync.js otherwise, passes provider, root and mode, appends the key exactly when it is non-empty, and holds a null exactly when root or mode is null. |
| IotaUtils.LastNonEmpty | extensions/io/org.eclipse.smarthome.io.iota/src/main/java/org/eclipse/smarthome/io/iota/utils/IotaUtils.java:151-157 | The last non-empty object of a sequence of fetch results is one of them, and None exactly when all are empty. |
| IotaUtils.ReplaySnoc | extensions/io/org.eclipse.smarthome.io.iota/src/main/java/org/eclipse/smarthome/io/iota/utils/IotaUtils.java:151-157 | Replaying one more fetch result applies the cache rule to it once. |
| IotaUtils.ReplayReturnsLastNonEmpty | extensions/io/org.eclipse.smarthome.io.iota/src/main/java/org/eclipse/smarthome/io/iota/utils/IotaUtils.java:151-157 | After any sequence of fetches the cache holds the last non-empty result, or what it held before when all were empty. |
| IotaUtils.FetchAnswer | extensions/io/org.eclipse.smarthome.io.iota/src/main/java/org/eclipse/smarthome/io/iota/utils/IotaUtils.java:141-157 | A failed launch leaves the cache as it was; a completed fetch updates it by the cache rule. |
| IotaUtils.IotaUtils.constructor | extensions/io/org.eclipse.smarthome.io.iota/src/main/java/org/eclipse/smarthome/io/iota/utils/IotaUtils.java:46-48 | A new adapter has no seed, start 0 and the empty cache. |
| IotaUtils.IotaUtils.WithSeed | extensions/io/org.eclipse.smarthome.io.iota/src/main/java/org/eclipse/smarthome/io/iota/utils/IotaUtils.java:50-54 | The adapter holds the seed and start given, with the empty cache. |
| IotaUtils.IotaUtils.SetStart | extensions/io/org.eclipse.smarthome.io.iota/src/main/java/org/eclipse/smarthome/io/iota/utils/IotaUtils.java:172-174 | `setStart` sets the start index. |
| IotaUtils.IotaUtils.PublishState | extensions/io/org.eclipse.smarthome.io.iota/src/main/java/org/eclipse/smarthome/io/iota/utils/IotaUtils.java:63-114 | A null mode fails the switch; no launch keeps seed and start; a launch publishes the argv built, and a non-empty answer replaces start and seed with its START and SEED. |
| IotaUtils.IotaUtils.FetchFromTangle | extensions/io/org.eclipse.smarthome.io.iota/src/main/java/org/eclipse/smarthome/io/iota/utils/IotaUtils.java:121-158 | The outcome and the new cache are those of `FetchAnswer`, and a completed fetch returns the cache. |
| IotaUtils.EmptyFetchRedeliversBatch | extensions/io/org.eclipse.smarthome.io.iota/src/main/java/org/eclipse/smarthome/io/iota/utils/IotaUtils.java:151-153 | After a batch was fetched, an empty answer returns the same batch again. |
| IotaUtils.RestrictedWithoutKeyKeepsPosition | extensions/io/org.eclipse.smarthome.io.iota/src/main/java/org/eclipse/smarthome/io/iota/utils/IotaUtils.java:89-91 | Restricted mode without a key launches nothing and keeps seed and start. |
| ChannelRouter.ScanFrom | extensions/binding/org.eclipse.smarthome.binding.iota/src/main/java/org/eclipse/smarthome/binding/iota/handler/IotaThingHandler.java:342-368 | A claimed record is the first well-formed one that matches the topic (or any record for the wildcard), all before it being readable and unclaimed; no claim means every record was readable and none matched; a failure means the first unreadable record comes before any match. |
| ChannelRouter.EmptyTopicClaimsNothing | extensions/binding/org.eclipse.smarthome.binding.iota/src/main/java/org/eclipse/smarthome/binding/iota/handler/IotaThingHandler.java:349 | A channel with an empty state topic claims no record. |
| ChannelRouter.WildcardClaimsFirst | extensions/binding/org.eclipse.smarthome.binding.iota/src/main/java/org/eclipse/smarthome/binding/iota/handler/IotaThingHandler.java:360-364 | A wildcard channel ("ANY" in any case) claims the first record. |
| ChannelRouter.TopicClaimsFirstMatch | extensions/binding/org.eclipse.smarthome.binding.iota/src/main/java/org/eclipse/smarthome/binding/iota/handler/IotaThingHandler.java:350-354 | A channel claims the first record whose TOPIC equals its state topic ignoring case, and gets its STATE. |
| ChannelRouter.PublishedEntryReachesItsTopic | extensions/binding/org.eclipse.smarthome.binding.iota/src/main/java/org/eclipse/smarthome/binding/iota/handler/IotaThingHandler.java:344-354 | Under ASCII case mapping, an entry the io bundle publishes reaches the channel whose state topic equals its Topic, with the upper-cased state. |
| ChannelRouter.UncategorisedEntryFailsReader | extensions/binding/org.eclipse.smarthome.binding.iota/src/main/java/org/eclipse/smarthome/binding/iota/handler/IotaThingHandler.java:344-347 | An entry published without a category has no TOPIC, and reading it fails the walk. |
| ChannelRouter.Remove | extensions/binding/org.eclipse.smarthome.binding.iota/src/main/java/org/eclipse/smarthome/binding/iota/handler/IotaThingHandler.java:353 | `Iterator.remove` drops exactly one record: the batch shrinks by one and keeps the others as a multiset. |
| ChannelRouter.StepChannel | extensions/binding/org.eclipse.smarthome.binding.iota/src/main/java/org/eclipse/smarthome/binding/iota/handler/IotaThingHandler.java:311-368 | A channel that goes on takes at most one record from the batch, and the records taken and kept are the batch; a record taken is delivered. |
| ChannelRouter.RouteBatch | extensions/binding/org.eclipse.smarthome.binding.iota/src/main/java/org/eclipse/smarthome/binding/iota/handler/IotaThingHandler.java:307-309 | An empty batch is not routed. |
| ChannelRouter.NoRecordDeliveredTwice | extensions/binding/org.eclipse.smarthome.binding.iota/src/main/java/org/eclipse/smarthome/binding/iota/handler/IotaThingHandler.java:342-368 | Over all channels, the records claimed and the records left together are the batch as a multiset, so no record reaches two channels. |
| ChannelRouter.MissingConfigFails | extensions/binding/org.eclipse.smarthome.binding.iota/src/main/java/org/eclipse/smarthome/binding/iota/handler/IotaThingHandler.java:311 | A channel without a config ends the walk with a NullPointerException before anything is delivered. |
| ChannelRouter.MissingServiceStopsWalk | extensions/binding/org.eclipse.smarthome.binding.iota/src/main/java/org/eclipse/smarthome/binding/iota/handler/IotaThingHandler.java:316-337 | A missing transformation service ends the walk normally, with nothing delivered and the batch kept. |
| ChannelSetup.GetOrDefaultText | extensions/binding/org.eclipse.smarthome.binding.iota/src/main/java/org/eclipse/smarthome/binding/iota/handler/IotaThingHandler.java:536-538 | An absent entry gives the default, a text gives itself, and any other value raises ClassCastException. |
| ChannelSetup.TruncateTowardZero | extensions/binding/org.eclipse.smarthome.binding.iota/src/main/java/org/eclipse/smarthome/binding/iota/handler/IotaThingHandler.java:540-542 | `intValue()` keeps the integer part, rounding toward zero. |
| ChannelSetup.Wrap32 | extensions/binding/org.eclipse.smarthome.binding.iota/src/main/java/org/eclipse/smarthome/binding/iota/handler/IotaThingHandler.java:540-542 | The narrowing to int keeps the value modulo 2^32 within the 32-bit range, and leaves a 32-bit value alone. |
| ChannelSetup.GetOrDefaultInt | extensions/binding/org.eclipse.smarthome.binding.iota/src/main/java/org/eclipse/smarthome/binding/iota/handler/IotaThingHandler.java:540-542 | A decimal gives a 32-bit value, anything else the default. |
| ChannelSetup.IntValueTruncates | extensions/binding/org.eclipse.smarthome.binding.iota/src/main/java/org/eclipse/smarthome/binding/iota/handler/IotaThingHandler.java:540-542 | For every decimal whose integer part fits in 32 bits, the refresh read is that integer part: same sign, less than 1 away toward zero, and the only such integer. |
| ChannelSetup.SplitPattern | extensions/binding/org.eclipse.smarthome.binding.iota/src/main/java/org/eclipse/smarthome/binding/iota/handler/IotaThingHandler.java:163-173 | A pattern that is absent or all Java whitespace is kept, a pattern without a colon is rejected, and otherwise the type before the first colon (upper-cased in its ASCII letters) and the rest are separated. |
| ChannelSetup.SplitPatternRoundTrip | extensions/binding/org.eclipse.smarthome.binding.iota/src/main/java/org/eclipse/smarthome/binding/iota/handler/IotaThingHandler.java:163-170 | Splitting "type:pattern" gives the upper-cased type and the pattern back. |
| ChannelSetup.DataRefreshInterval | extensions/binding/org.eclipse.smarthome.binding.iota/src/main/java/org/eclipse/smarthome/binding/iota/handler/IotaThingHandler.java:250 | The data job runs every `refresh` seconds, and every second when refresh is 0; the interval is never 0. |
| ChannelSetup.DataRefreshSchedulable | extensions/binding/org.eclipse.smarthome.binding.iota/src/main/java/org/eclipse/smarthome/binding/iota/handler/IotaThingHandler.java:250 | A refresh that is not negative gives an interval the scheduler accepts. |
| ChannelSetup.SetupOf | extensions/binding/org.eclipse.smarthome.binding.iota/src/main/java/org/eclipse/smarthome/binding/iota/handler/IotaThingHandler.java:156-203 | A channel is refused for its pattern exactly when the topic handler finds no colon; an installed channel is of a known type (payment only for the payment handler) with a refresh the scheduler accepts. |
| ChannelSetup.Setup | extensions/binding/org.eclipse.smarthome.binding.iota/src/main/java/org/eclipse/smarthome/binding/iota/handler/IotaThingHandler.java:156-203 | The channels the loop installs are channels of the Thing. |
| ChannelSetup.SetupInstallsOnlyNew | extensions/binding/org.eclipse.smarthome.binding.iota/src/main/java/org/eclipse/smarthome/binding/iota/handler/IotaThingHandler.java:159 | Every channel installed had no config before and is installed once. |
| ChannelSetup.SetupCompletes | extensions/binding/org.eclipse.smarthome.binding.iota/src/main/java/org/eclipse/smarthome/binding/iota/handler/IotaThingHandler.java:156-203 | When every remaining channel can be set up, the loop ends normally and installs each one without a config. |
| ChannelSetup.SetupSchedulesJobs | extensions/binding/org.eclipse.smarthome.binding.iota/src/main/java/org/eclipse/smarthome/binding/iota/handler/IotaThingHandler.java:175-199 | A data job is scheduled only with a positive interval, and a payment job only for an installed payment channel, which is then expected to pay. |
| ChannelSetup.SetupKeepsExpected | extensions/binding/org.eclipse.smarthome.binding.iota/src/main/java/org/eclipse/smarthome/binding/iota/handler/IotaPaymentThingHandler.java:124 | Channels already awaiting payment stay awaiting payment through the loop. |
| ChannelSetup.ExpectAll | extensions/binding/org.eclipse.smarthome.binding.iota/src/main/java/org/eclipse/smarthome/binding/iota/handler/IotaPaymentThingHandler.java:124 | Marking channels as awaiting payment sets each flag to false and keeps the others. |
| ChannelSetup.ExpectOneMore | extensions/binding/org.eclipse.smarthome.binding.iota/src/main/java/org/eclipse/smarthome/binding/iota/handler/IotaPaymentThingHandler.java:124 | Marking one more channel is one more `put(uid, false)`. |
| ChannelSetup.ReflectsStep | extensions/binding/org.eclipse.smarthome.binding.iota/src/main/java/org/eclipse/smarthome/binding/iota/handler/IotaThingHandler.java:156-203 | One turn of the loop keeps the handler's configs, flags and jobs in step with the plan computed so far. |
| PaymentSender.NoRootNoPayment | extensions/binding/org.eclipse.smarthome.binding.iota/src/main/java/org/eclipse/smarthome/binding/iota/handler/IotaPaymentThingHandler.java:283-285 | A channel without a root makes no payment and reports that it could not fetch data. |
| PaymentSender.TransferOnlyWithinThreshold | extensions/binding/org.eclipse.smarthome.binding.iota/src/main/java/org/eclipse/smarthome/binding/iota/handler/IotaPaymentThingHandler.java:207-274 | A transfer is made only when the handshake's price is within the threshold, no wallet is recorded, the ledger accepts it, and then to the packet's wallet for its price. |
| PaymentSender.RecordedWalletBlocksTransfer | extensions/binding/org.eclipse.smarthome.binding.iota/src/main/java/org/eclipse/smarthome/binding/iota/handler/IotaPaymentThingHandler.java:230-237 | Once a wallet is recorded for the channel no further transfer is made. |
| PaymentSender.TransferMessageIsEncryptedKey | extensions/binding/org.eclipse.smarthome.binding.iota/src/main/java/org/eclipse/smarthome/binding/iota/handler/IotaPaymentThingHandler.java:215-228 | The transfer carries the own key encrypted with the packet's RSA key, or the empty text without an own key or when encryption fails. |
| PaymentSender.PaymentBook.constructor | extensions/binding/org.eclipse.smarthome.binding.iota/src/main/java/org/eclipse/smarthome/binding/iota/handler/IotaPaymentThingHandler.java:72-76 | The wallet and payment maps start empty, and there is no next root. |
| PaymentSender.PaymentBook.SendPaymentToWallet | extensions/binding/org.eclipse.smarthome.binding.iota/src/main/java/org/eclipse/smarthome/binding/iota/handler/IotaPaymentThingHandler.java:180-287 | The attempt is the decision described by `Decide`; the wallet is recorded only when a transfer was made, and nextroot follows the handshake read. |
| PaymentSender.PayOnceOfOnlyRaises | extensions/binding/org.eclipse.smarthome.binding.iota/src/main/java/org/eclipse/smarthome/binding/iota/handler/IotaPaymentThingHandler.java:156-165 | Flags only rise and only the channel's own; the flag rises exactly when the attempt made a transfer, and that transfer records the wallet of a channel that had none. |
| PaymentSender.PayOneRun | extensions/binding/org.eclipse.smarthome.binding.iota/src/main/java/org/eclipse/smarthome/binding/iota/handler/IotaPaymentThingHandler.java:152-165 | One run of the payment job is one `PayOnceOf` on the books as they are. |
| PaymentSender.StaysPaid | extensions/binding/org.eclipse.smarthome.binding.iota/src/main/java/org/eclipse/smarthome/binding/iota/handler/IotaPaymentThingHandler.java:156-163 | After a run that made a transfer the channel's flag stays raised through every later run. |
| PaymentSender.PaysAtMostOnce | extensions/binding/org.eclipse.smarthome.binding.iota/src/main/java/org/eclipse/smarthome/binding/iota/handler/IotaPaymentThingHandler.java:156-165 | After a run that made a transfer, every later run makes no attempt and leaves the books unchanged, whatever the tangle and wallet answer: the channel is paid at most once. |
| PaymentSender.PaymentBook.PayOnce | extensions/binding/org.eclipse.smarthome.binding.iota/src/main/java/org/eclipse/smarthome/binding/iota/handler/IotaPaymentThingHandler.java:156-165 | The outcome, attempt and new books are `PayOnceOf` of the old books: a channel with no flag fails on unboxing; a paid channel is not tried again; an unpaid one is tried, and its flag flips to true only when a transfer was made; flags never fall back. |
| PaymentSender.PaymentBook.ExpectPayment | extensions/binding/org.eclipse.smarthome.binding.iota/src/main/java/org/eclipse/smarthome/binding/iota/handler/IotaPaymentThingHandler.java:124 | The channel's flag is set to false. |
| PaymentSender.PaymentBook.MarkSent | extensions/binding/org.eclipse.smarthome.binding.iota/src/main/java/org/eclipse/smarthome/binding/iota/handler/IotaPaymentThingHandler.java:163 | The channel's flag is set to true. |
| PaymentSender.PaymentBook.Forget | extensions/binding/org.eclipse.smarthome.binding.iota/src/main/java/org/eclipse/smarthome/binding/iota/handler/IotaPaymentThingHandler.java:345 | The channel's wallet entry is removed. |
| IotaPaymentThingHandler.TopicThingFor | extensions/binding/org.eclipse.smarthome.binding.iota/src/main/java/org/eclipse/smarthome/binding/iota/handler/IotaPaymentThingHandler.java:312-330 | The Thing created on confirmation follows the channel's id under the same bridge, with root = nextroot, refresh 60, mode "restricted" and key = ownkey. |
| IotaPaymentThingHandler.Without | extensions/binding/org.eclipse.smarthome.binding.iota/src/main/java/org/eclipse/smarthome/binding/iota/handler/IotaPaymentThingHandler.java:338-349 | The channel list without the paid channel holds no channel with its UID. |
| IotaPaymentThingHandler.WithoutRemovesExactly | extensions/binding/org.eclipse.smarthome.binding.iota/src/main/java/org/eclipse/smarthome/binding/iota/handler/IotaPaymentThingHandler.java:338-349 | Exactly the paid channel's UID is removed from the list of UIDs, with every other UID kept as often as it was. |
| IotaPaymentThingHandler.WithoutKeepsOrder | extensions/binding/org.eclipse.smarthome.binding.iota/src/main/java/org/eclipse/smarthome/binding/iota/handler/IotaPaymentThingHandler.java:338-349 | Removal distributes over concatenation, so the other channels keep their order. |
| IotaPaymentThingHandler.WithoutAbsent | extensions/binding/org.eclipse.smarthome.binding.iota/src/main/java/org/eclipse/smarthome/binding/iota/handler/IotaPaymentThingHandler.java:338-349 | Removing a channel that is not there leaves the list unchanged. |
| IotaPaymentThingHandler.IotaPaymentThingHandler.constructor | extensions/binding/org.eclipse.smarthome.binding.iota/src/main/java/org/eclipse/smarthome/binding/iota/handler/IotaPaymentThingHandler.java:82-85 | The handler starts with no configs, refresh 0, no adapter and empty payment maps. |
| IotaPaymentThingHandler.IotaPaymentThingHandler.InstallChannel | extensions/binding/org.eclipse.smarthome.binding.iota/src/main/java/org/eclipse/smarthome/binding/iota/handler/IotaPaymentThingHandler.java:115-133 | One turn of the channel loop: a new payment channel gets a config, a false flag and a refresh job; another type throws. |
| IotaPaymentThingHandler.IotaPaymentThingHandler.InstallTurn | extensions/binding/org.eclipse.smarthome.binding.iota/src/main/java/org/eclipse/smarthome/binding/iota/handler/IotaPaymentThingHandler.java:115-131 | One turn keeps the handler in step with the plan. |
| IotaPaymentThingHandler.IotaPaymentThingHandler.InstallChannels | extensions/binding/org.eclipse.smarthome.binding.iota/src/main/java/org/eclipse/smarthome/binding/iota/handler/IotaPaymentThingHandler.java:115-133 | The loop does what `Setup` computes for the payment handler. |
| IotaPaymentThingHandler.IotaPaymentThingHandler.Initialize | extensions/binding/org.eclipse.smarthome.binding.iota/src/main/java/org/eclipse/smarthome/binding/iota/handler/IotaPaymentThingHandler.java:93-135 | The refresh is read from the configuration, the bridge's adapter taken when there is one, the channels set up, and the Thing goes online when the loop completes. |
| IotaPaymentThingHandler.IotaPaymentThingHandler.Dispose | extensions/binding/org.eclipse.smarthome.binding.iota/src/main/java/org/eclipse/smarthome/binding/iota/handler/IotaPaymentThingHandler.java:137-146 | The refresh job is cancelled if scheduled, every config drops its listener, and the configs are cleared. |
| IotaPaymentThingHandler.IotaPaymentThingHandler.RemoveChannel | extensions/binding/org.eclipse.smarthome.binding.iota/src/main/java/org/eclipse/smarthome/binding/iota/handler/IotaPaymentThingHandler.java:336-350 | Exactly the paid channel leaves the channel list, and its config and wallet entries are deleted. |
| IotaPaymentThingHandler.IotaPaymentThingHandler.AttemptPayment | extensions/binding/org.eclipse.smarthome.binding.iota/src/main/java/org/eclipse/smarthome/binding/iota/handler/IotaPaymentThingHandler.java:156-165 | The outcome and the new books are one run of `PayRuns` on the old books with the adapter's presence as `utils != null`; flags only rise, a new true flag comes with a transfer, and the Thing goes offline with "Could not fetch data" exactly when the attempt found no root. |
| IotaPaymentThingHandler.IotaPaymentThingHandler.CheckPaymentStatus | extensions/binding/org.eclipse.smarthome.binding.iota/src/main/java/org/eclipse/smarthome/binding/iota/handler/IotaPaymentThingHandler.java:303-355 | A confirmed wallet sets "success", creates the topic Thing and removes the channel; otherwise the channel shows "processing...". |
| IotaPaymentThingHandler.IotaPaymentThingHandler.FinishTick | extensions/binding/org.eclipse.smarthome.binding.iota/src/main/java/org/eclipse/smarthome/binding/iota/handler/IotaPaymentThingHandler.java:166-173 | After the attempt, an exception takes the Thing offline with its message and changes nothing else; otherwise the payment status is checked as `CheckPaymentStatus` says. |
| IotaPaymentThingHandler.IotaPaymentThingHandler.PaymentTick | extensions/binding/org.eclipse.smarthome.binding.iota/src/main/java/org/eclipse/smarthome/binding/iota/handler/IotaPaymentThingHandler.java:152-174 | A tick for a channel without a config does nothing; otherwise the attempt is one run of `PayRuns` on the old books, the tick throws exactly when the attempt threw or there is no adapter, and an exception takes the Thing offline with its message; with an adapter and a confirmed wallet the topic Thing for the handshake's next root is created and the channel leaves the Thing with its config and wallet; otherwise channels, configs and created Things are unchanged. |
| IotaThingHandler.Advance | extensions/binding/org.eclipse.smarthome.binding.iota/src/main/java/org/eclipse/smarthome/binding/iota/handler/IotaThingHandler.java:289-295 | A non-empty response moves the cursor and reports data; an empty one keeps root and batch. |
| IotaThingHandler.EmptyRootFetchesNothing | extensions/binding/org.eclipse.smarthome.binding.iota/src/main/java/org/eclipse/smarthome/binding/iota/handler/IotaThingHandler.java:296-298 | An empty root fetches nothing, reports that data could not be fetched, and keeps the cursor. |
| IotaThingHandler.AtMostOneLookAhead | extensions/binding/org.eclipse.smarthome.binding.iota/src/main/java/org/eclipse/smarthome/binding/iota/handler/IotaThingHandler.java:275-288 | The current root is fetched first, and at most one look-ahead root after it. |
| IotaThingHandler.CursorMovesOnlyOnData | extensions/binding/org.eclipse.smarthome.binding.iota/src/main/java/org/eclipse/smarthome/binding/iota/handler/IotaThingHandler.java:289-295 | A fetch that reports data sets the root to the response's NEXTROOT and the batch to its first entry. |
| IotaThingHandler.AdvanceReads | extensions/binding/org.eclipse.smarthome.binding.iota/src/main/java/org/eclipse/smarthome/binding/iota/handler/IotaThingHandler.java:290-291 | A response that moves the cursor names the new root and holds the batch read. |
| IotaThingHandler.CachedBatchRedelivered | extensions/binding/org.eclipse.smarthome.binding.iota/src/main/java/org/eclipse/smarthome/binding/iota/handler/IotaThingHandler.java:289-295 | While the stream has not moved on, the cached response is delivered again and the root moves to its NEXTROOT. |
| IotaThingHandler.AfterFetch | extensions/binding/org.eclipse.smarthome.binding.iota/src/main/java/org/eclipse/smarthome/binding/iota/handler/IotaThingHandler.java:252-260 | A batch found is routed; otherwise the fetch's outcome stands; an exception takes the Thing offline with its message, and a missing root with "Could not fetch data". |
| IotaThingHandler.ResumesStep | extensions/binding/org.eclipse.smarthome.binding.iota/src/main/java/org/eclipse/smarthome/binding/iota/handler/IotaThingHandler.java:342-368 | One more channel of the walk either ends it or leaves the rest of the walk to the next channel. |
| IotaThingHandler.ChannelIds | extensions/binding/org.eclipse.smarthome.binding.iota/src/main/java/org/eclipse/smarthome/binding/iota/handler/IotaThingHandler.java:342 | The channel UIDs, in channel order. |
| IotaThingHandler.ReadSettings | extensions/binding/org.eclipse.smarthome.binding.iota/src/main/java/org/eclipse/smarthome/binding/iota/handler/IotaThingHandler.java:133-138 | Root, refresh, mode and key are read in that order, each falling back to the current value; a text entry of another type raises ClassCastException, and the entries after it are not read. |
| IotaThingHandler.ConfigurationReadBack | extensions/binding/org.eclipse.smarthome.binding.iota/src/main/java/org/eclipse/smarthome/binding/iota/handler/IotaThingHandler.java:133-138 | The configuration written for a confirmed payment reads back as the settings written. |
| IotaThingHandler.FindClaim | extensions/binding/org.eclipse.smarthome.binding.iota/src/main/java/org/eclipse/smarthome/binding/iota/handler/IotaThingHandler.java:342-368 | The inner loop finds what `Scan` specifies for the batch and topic. |
| IotaThingHandler.IotaThingHandler.constructor | extensions/binding/org.eclipse.smarthome.binding.iota/src/main/java/org/eclipse/smarthome/binding/iota/handler/IotaThingHandler.java:97-102 | The handler starts with no configs, no root, refresh 0, no adapter, no jobs and empty payment maps. |
| IotaThingHandler.IotaThingHandler.NewConfig | extensions/binding/org.eclipse.smarthome.binding.iota/src/main/java/org/eclipse/smarthome/binding/iota/handler/IotaThingHandler.java:158-173 | A new config is built from its channel with the pattern split and a listener; its codec starts at "0" for a number or percent channel and empty otherwise. |
| IotaThingHandler.IotaThingHandler.ScheduleFor | extensions/binding/org.eclipse.smarthome.binding.iota/src/main/java/org/eclipse/smarthome/binding/iota/handler/IotaThingHandler.java:175-199 | A new channel schedules the job its type calls for: a payment channel is expected to pay, an unknown type throws. |
| IotaThingHandler.IotaThingHandler.InstallChannel | extensions/binding/org.eclipse.smarthome.binding.iota/src/main/java/org/eclipse/smarthome/binding/iota/handler/IotaThingHandler.java:157-202 | One turn of the channel loop does what `SetupStep` computes. |
| IotaThingHandler.IotaThingHandler.InstallTurn | extensions/binding/org.eclipse.smarthome.binding.iota/src/main/java/org/eclipse/smarthome/binding/iota/handler/IotaThingHandler.java:157-202 | One turn keeps the handler in step with the plan. |
| IotaThingHandler.IotaThingHandler.InstallChannels | extensions/binding/org.eclipse.smarthome.binding.iota/src/main/java/org/eclipse/smarthome/binding/iota/handler/IotaThingHandler.java:156-203 | The loop does what `Setup` computes for the topic handler. |
| IotaThingHandler.IotaThingHandler.HandleCommand | extensions/binding/org.eclipse.smarthome.binding.iota/src/main/java/org/eclipse/smarthome/binding/iota/handler/IotaThingHandler.java:109-126 | Only a refresh of a known non-payment channel with a value re-emits that value. |
| IotaThingHandler.IotaThingHandler.FetchItemState | extensions/binding/org.eclipse.smarthome.binding.iota/src/main/java/org/eclipse/smarthome/binding/iota/handler/IotaThingHandler.java:268-300 | The cursor steps as `Cursor` specifies, and the Thing goes offline for a missing or empty root. |
| IotaThingHandler.IotaThingHandler.FollowRoot | extensions/binding/org.eclipse.smarthome.binding.iota/src/main/java/org/eclipse/smarthome/binding/iota/handler/IotaThingHandler.java:275-295 | The fetches at a non-empty root step the cursor as `Cursor` specifies. |
| IotaThingHandler.IotaThingHandler.Absorb | extensions/binding/org.eclipse.smarthome.binding.iota/src/main/java/org/eclipse/smarthome/binding/iota/handler/IotaThingHandler.java:289-295 | A response is taken into the cursor as `Advance` specifies. |
| IotaThingHandler.IotaThingHandler.StepChannel | extensions/binding/org.eclipse.smarthome.binding.iota/src/main/java/org/eclipse/smarthome/binding/iota/handler/IotaThingHandler.java:311-368 | One channel's turn does what `ChannelRouter.StepChannel` computes and keeps the records left. |
| IotaThingHandler.IotaThingHandler.UpdateAllStates | extensions/binding/org.eclipse.smarthome.binding.iota/src/main/java/org/eclipse/smarthome/binding/iota/handler/IotaThingHandler.java:307-373 | The walk delivers what `RouteBatch` computes and leaves the remaining records, changing nothing else of the handler. |
| IotaThingHandler.IotaThingHandler.Initialize | extensions/binding/org.eclipse.smarthome.binding.iota/src/main/java/org/eclipse/smarthome/binding/iota/handler/IotaThingHandler.java:129-204 | Settings are read as `ReadSettings` says; a wrongly typed entry stops there with ClassCastException; otherwise the bridge's adapter is taken, the Thing goes online, the channels are set up as `Setup` computes, and a pattern without a colon takes the Thing offline with a configuration error. |
| IotaThingHandler.IotaThingHandler.Dispose | extensions/binding/org.eclipse.smarthome.binding.iota/src/main/java/org/eclipse/smarthome/binding/iota/handler/IotaThingHandler.java:206-218 | Both jobs are cancelled when scheduled, every config drops its listener, and the configs are cleared. |
| IotaThingHandler.IotaThingHandler.DataTick | extensions/binding/org.eclipse.smarthome.binding.iota/src/main/java/org/eclipse/smarthome/binding/iota/handler/IotaThingHandler.java:248-262 | A data tick fetches and then routes as `AfterFetch` specifies. |
| IotaThingHandler.IotaThingHandler.CheckPaymentStatus | extensions/binding/org.eclipse.smarthome.binding.iota/src/main/java/org/eclipse/smarthome/binding/iota/handler/IotaThingHandler.java:502-534 | A confirmed wallet shows "success", rewrites the Thing configuration to follow the paid stream (next root, refresh 60, own key) and cancels the payment job; otherwise the channel shows "processing..."; without an adapter it is a NullPointerException. |
| IotaThingHandler.IotaThingHandler.AttemptPayment | extensions/binding/org.eclipse.smarthome.binding.iota/src/main/java/org/eclipse/smarthome/binding/iota/handler/IotaThingHandler.java:224-233 | The outcome and the new books are one run of `PayRuns` on the old books with the adapter's presence as `utils != null`; flags only rise, a new true flag comes with a transfer, and the Thing goes offline with "Could not fetch data" exactly when the attempt found no root. |
| IotaThingHandler.IotaThingHandler.FinishTick | extensions/binding/org.eclipse.smarthome.binding.iota/src/main/java/org/eclipse/smarthome/binding/iota/handler/IotaThingHandler.java:234-241 | After the attempt, an exception takes the Thing offline with its message and changes nothing else; otherwise the payment status is checked as `CheckPaymentStatus` says. |
| IotaThingHandler.IotaThingHandler.PaymentTick | extensions/binding/org.eclipse.smarthome.binding.iota/src/main/java/org/eclipse/smarthome/binding/iota/handler/IotaThingHandler.java:220-242 | A tick for a channel without a config does nothing; otherwise the attempt is one run of `PayRuns` on the old books and the books are left as it left them; the tick throws exactly when the attempt threw, there is no adapter, or a confirmed payment finds no payment job to cancel; an exception takes the Thing offline with its message; the configuration changes only on confirmation. |
| ItemStateListener.ReadPrice | extensions/io/org.eclipse.smarthome.io.iota/src/main/java/org/eclipse/smarthome/io/iota/internal/IotaItemStateChangeListener.java:84-89 | A BigDecimal or Double price is read; a missing one raises NullPointerException, any other type ClassCastException. |
| ItemStateListener.EntryFor | extensions/io/org.eclipse.smarthome.io.iota/src/main/java/org/eclipse/smarthome/io/iota/internal/IotaItemStateChangeListener.java:187-194 | The entry carries the item's name, state and time, and a Topic exactly when the item has a category. |
| ItemStateListener.WithoutName | extensions/io/org.eclipse.smarthome.io.iota/src/main/java/org/eclipse/smarthome/io/iota/internal/IotaItemStateChangeListener.java:198-206 | The batch without the name holds exactly the other entries. |
| ItemStateListener.CountAppend | extensions/io/org.eclipse.smarthome.io.iota/src/main/java/org/eclipse/smarthome/io/iota/internal/IotaItemStateChangeListener.java:198-206 | Counting entries of a name adds over concatenation. |
| ItemStateListener.WithoutNameSize | extensions/io/org.eclipse.smarthome.io.iota/src/main/java/org/eclipse/smarthome/io/iota/internal/IotaItemStateChangeListener.java:229-242 | Removing a name removes exactly its entries. |
| ItemStateListener.WithoutNameIdempotent | extensions/io/org.eclipse.smarthome.io.iota/src/main/java/org/eclipse/smarthome/io/iota/internal/IotaItemStateChangeListener.java:229-242 | Removing a name twice is removing it once. |
| ItemStateListener.UpsertPlacesOneEntryLast | extensions/io/org.eclipse.smarthome.io.iota/src/main/java/org/eclipse/smarthome/io/iota/internal/IotaItemStateChangeListener.java:181-221 | After `addToStates` the batch holds exactly one entry of the item's name, and it is the last. |
| ItemStateListener.UpsertKeepsOthers | extensions/io/org.eclipse.smarthome.io.iota/src/main/java/org/eclipse/smarthome/io/iota/internal/IotaItemStateChangeListener.java:181-221 | The other entries are the old ones, in their old order. |
| ItemStateListener.UpsertIdempotent | extensions/io/org.eclipse.smarthome.io.iota/src/main/java/org/eclipse/smarthome/io/iota/internal/IotaItemStateChangeListener.java:181-221 | Adding the same entry twice is adding it once. |
| ItemStateListener.UpsertSizeWithUniqueNames | extensions/io/org.eclipse.smarthome.io.iota/src/main/java/org/eclipse/smarthome/io/iota/internal/IotaItemStateChangeListener.java:181-221 | With unique names the batch grows by one only for a new name. |
| ItemStateListener.DropName | extensions/io/org.eclipse.smarthome.io.iota/src/main/java/org/eclipse/smarthome/io/iota/internal/IotaItemStateChangeListener.java:198-206 | The iterator loop removes exactly the entries of the name. |
| ItemStateListener.AddToStates | extensions/io/org.eclipse.smarthome.io.iota/src/main/java/org/eclipse/smarthome/io/iota/internal/IotaItemStateChangeListener.java:181-221 | The batch after `addToStates` is the upsert of the item's entry. |
| ItemStateListener.RequestOf | extensions/io/org.eclipse.smarthome.io.iota/src/main/java/org/eclipse/smarthome/io/iota/internal/IotaItemStateChangeListener.java:82-101 | A metadata entry schedules a flush with its mode, price and wallet, or fails on a missing mode or unreadable price. |
| ItemStateListener.ScanStopsAtFailure | extensions/io/org.eclipse.smarthome.io.iota/src/main/java/org/eclipse/smarthome/io/iota/internal/IotaItemStateChangeListener.java:63-150 | Once the walk over the registry has failed, later entries change nothing. |
| ItemStateListener.ScanWithoutMetadata | extensions/io/org.eclipse.smarthome.io.iota/src/main/java/org/eclipse/smarthome/io/iota/internal/IotaItemStateChangeListener.java:63-64 | An item without metadata is ignored. |
| ItemStateListener.ScanLastBelongsToItem | extensions/io/org.eclipse.smarthome.io.iota/src/main/java/org/eclipse/smarthome/io/iota/internal/IotaItemStateChangeListener.java:93-101 | The flush left scheduled is one read from a metadata entry of the item. |
| ItemStateListener.WalkStep | extensions/io/org.eclipse.smarthome.io.iota/src/main/java/org/eclipse/smarthome/io/iota/internal/IotaItemStateChangeListener.java:63-150 | One registry entry advances the batches and flushes as the walk specifies. |
| ItemStateListener.VisitEntry | extensions/io/org.eclipse.smarthome.io.iota/src/main/java/org/eclipse/smarthome/io/iota/internal/IotaItemStateChangeListener.java:64-101 | One entry of the item upserts the entry into the seed's batch and schedules its flush when the seed has a debouncer. |
| ItemStateListener.WalkRegistry | extensions/io/org.eclipse.smarthome.io.iota/src/main/java/org/eclipse/smarthome/io/iota/internal/IotaItemStateChangeListener.java:63-150 | The walk leaves the batches and flushes the specification computes for the whole registry. |
| ItemStateListener.PublishStep | extensions/io/org.eclipse.smarthome.io.iota/src/main/java/org/eclipse/smarthome/io/iota/internal/IotaItemStateChangeListener.java:107-108 | A publish goes out exactly when the seed has an adapter and a batch; otherwise it is a NullPointerException with nothing sent. |
| ItemStateListener.FlushPlan | extensions/io/org.eclipse.smarthome.io.iota/src/main/java/org/eclipse/smarthome/io/iota/internal/IotaItemStateChangeListener.java:103-146 | Unpriced or non-restricted streams publish with the stored key or null; a priced restricted stream publishes items only when paid, sends the handshake, as the first call, exactly when the flag is false and the wallet non-empty, and that is what sets the flag; a missing flag is a NullPointerException. The key pair is read before the adapter, so a short key pair is an index error even without an adapter. |
| ItemStateListener.IotaItemStateChangeListener.constructor | extensions/io/org.eclipse.smarthome.io.iota/src/main/java/org/eclipse/smarthome/io/iota/internal/IotaItemStateChangeListener.java:49-58 | All maps start empty, and nothing has been published. |
| ItemStateListener.IotaItemStateChangeListener.StateChanged | extensions/io/org.eclipse.smarthome.io.iota/src/main/java/org/eclipse/smarthome/io/iota/internal/IotaItemStateChangeListener.java:62-151 | The listener's batches and flushes become what the walk over the registry computes. |
| ItemStateListener.IotaItemStateChangeListener.StateUpdated | extensions/io/org.eclipse.smarthome.io.iota/src/main/java/org/eclipse/smarthome/io/iota/internal/IotaItemStateChangeListener.java:154-161 | `stateUpdated` does what `stateChanged` does with the same state. |
| ItemStateListener.IotaItemStateChangeListener.RemoveItemFromJson | extensions/io/org.eclipse.smarthome.io.iota/src/main/java/org/eclipse/smarthome/io/iota/internal/IotaItemStateChangeListener.java:229-242 | An item with a seed loses every entry of its name from that seed's batch; otherwise nothing changes. |
| ItemStateListener.IotaItemStateChangeListener.PublishOn | extensions/io/org.eclipse.smarthome.io.iota/src/main/java/org/eclipse/smarthome/io/iota/internal/IotaItemStateChangeListener.java:107-108 | One publish call on the seed's adapter, as `PublishStep` says. |
| ItemStateListener.IotaItemStateChangeListener.FlushPriced | extensions/io/org.eclipse.smarthome.io.iota/src/main/java/org/eclipse/smarthome/io/iota/internal/IotaItemStateChangeListener.java:109-141 | The auto-compensation branch sends and sets what `FlushPlan` decides. |
| ItemStateListener.IotaItemStateChangeListener.Flush | extensions/io/org.eclipse.smarthome.io.iota/src/main/java/org/eclipse/smarthome/io/iota/internal/IotaItemStateChangeListener.java:101-147 | A seed's pending flush runs as `FlushPlan` decides and is then no longer pending; without one nothing happens. |
| IotaIoThingHandler.Padding | extensions/io/org.eclipse.smarthome.io.iota/src/main/java/org/eclipse/smarthome/io/iota/handler/IotaIoThingHandler.java:218-225 | The padding counted is never longer than the signature. |
| IotaIoThingHandler.PaddingIsPadding | extensions/io/org.eclipse.smarthome.io.iota/src/main/java/org/eclipse/smarthome/io/iota/handler/IotaIoThingHandler.java:218-225 | The padding is a run of '9's at the end that stops before index 0 or at a non-'9'. |
| IotaIoThingHandler.PaddingIsOnlyPadding | extensions/io/org.eclipse.smarthome.io.iota/src/main/java/org/eclipse/smarthome/io/iota/handler/IotaIoThingHandler.java:218-225 | The counting loop can only stop at that padding. |
| IotaIoThingHandler.AllNinesKeepFirst | extensions/io/org.eclipse.smarthome.io.iota/src/main/java/org/eclipse/smarthome/io/iota/handler/IotaIoThingHandler.java:219 | A signature of only '9's keeps its first character. |
| IotaIoThingHandler.StripsExactlyTheRun | extensions/io/org.eclipse.smarthome.io.iota/src/main/java/org/eclipse/smarthome/io/iota/handler/IotaIoThingHandler.java:218-228 | A message ending in a non-'9' padded with '9's is recovered exactly. |
| IotaIoThingHandler.CountPadding | extensions/io/org.eclipse.smarthome.io.iota/src/main/java/org/eclipse/smarthome/io/iota/handler/IotaIoThingHandler.java:218-225 | The loop counts the padding. |
| IotaIoThingHandler.ReportedIsLastAnswer | extensions/io/org.eclipse.smarthome.io.iota/src/main/java/org/eclipse/smarthome/io/iota/handler/IotaIoThingHandler.java:169-183 | The balance reported for a channel is its own answer, or the last successful answer before it, or 0 for none. |
| IotaIoThingHandler.BalanceMapStoresReported | extensions/io/org.eclipse.smarthome.io.iota/src/main/java/org/eclipse/smarthome/io/iota/handler/IotaIoThingHandler.java:280 | Every channel's stored balance is overwritten with the value reported this tick. |
| IotaIoThingHandler.FirstPayment | extensions/io/org.eclipse.smarthome.io.iota/src/main/java/org/eclipse/smarthome/io/iota/handler/IotaIoThingHandler.java:191-200 | The first transaction that pays into the address, or none. |
| IotaIoThingHandler.SeekPayment | extensions/io/org.eclipse.smarthome.io.iota/src/main/java/org/eclipse/smarthome/io/iota/handler/IotaIoThingHandler.java:187-273 | No transactions find nothing; a null address throws; a short address throws IndexOutOfBounds; otherwise the first paying transaction is found. |
| IotaIoThingHandler.Recognition | extensions/io/org.eclipse.smarthome.io.iota/src/main/java/org/eclipse/smarthome/io/iota/handler/IotaIoThingHandler.java:185-207 | A payment is recognised only for an address at least as long as the checksum. |
| IotaIoThingHandler.RecognitionIsFirstExactPayment | extensions/io/org.eclipse.smarthome.io.iota/src/main/java/org/eclipse/smarthome/io/iota/handler/IotaIoThingHandler.java:185-207 | A transaction is taken as the payment exactly when a previous, different balance exists, it is the first paying transaction, and the change equals the wallet's price. |
| IotaIoThingHandler.GrowsComposes | extensions/io/org.eclipse.smarthome.io.iota/src/main/java/org/eclipse/smarthome/io/iota/handler/IotaIoThingHandler.java:239-265 | The books only grow, over any number of steps. |
| IotaIoThingHandler.Receive | extensions/io/org.eclipse.smarthome.io.iota/src/main/java/org/eclipse/smarthome/io/iota/handler/IotaIoThingHandler.java:204-266 | A recognised payment renews the stream's key only with a non-empty password, marks the stream paid and schedules a release; an unknown wallet is a NullPointerException, and a decryption exception the handler does not catch ends the tick with the books unchanged. |
| IotaIoThingHandler.ReceiveStoresTheSentKey | extensions/io/org.eclipse.smarthome.io.iota/src/main/java/org/eclipse/smarthome/io/iota/handler/IotaIoThingHandler.java:216-241 | The key a payer sends padded with '9's is the key the stream gets. |
| IotaIoThingHandler.Settle | extensions/io/org.eclipse.smarthome.io.iota/src/main/java/org/eclipse/smarthome/io/iota/handler/IotaIoThingHandler.java:185-280 | The balance is stored on success; without a recognised payment the books are unchanged; only the stream owning the watched wallet can have its books changed. |
| IotaIoThingHandler.TickStopsAtFailure | extensions/io/org.eclipse.smarthome.io.iota/src/main/java/org/eclipse/smarthome/io/iota/handler/IotaIoThingHandler.java:166-283 | Once a channel has thrown, the later channels of the tick do not matter. |
| IotaIoThingHandler.TickGrows | extensions/io/org.eclipse.smarthome.io.iota/src/main/java/org/eclipse/smarthome/io/iota/handler/IotaIoThingHandler.java:166-283 | Over a whole tick, payment flags only rise, keys are only renewed with non-empty ones, and the only flushes scheduled are releases. |
| IotaIoThingHandler.TickStoresBalances | extensions/io/org.eclipse.smarthome.io.iota/src/main/java/org/eclipse/smarthome/io/iota/handler/IotaIoThingHandler.java:279-280 | A tick that ends normally has stored every channel's reported balance. |
| IotaIoThingHandler.TickTouchesOnlyOwners | extensions/io/org.eclipse.smarthome.io.iota/src/main/java/org/eclipse/smarthome/io/iota/handler/IotaIoThingHandler.java:204-266 | A tick marks paid, re-keys and releases only streams owning a watched wallet; every other stream's books are unchanged. |
| IotaIoThingHandler.InstallFromCharacterised | extensions/io/org.eclipse.smarthome.io.iota/src/main/java/org/eclipse/smarthome/io/iota/handler/IotaIoThingHandler.java:109-125 | The loop fails exactly at a new channel of another type, and otherwise installs every new balance channel. |
| IotaIoThingHandler.InstallFromFailsOnward | extensions/io/org.eclipse.smarthome.io.iota/src/main/java/org/eclipse/smarthome/io/iota/handler/IotaIoThingHandler.java:109-125 | Once the loop has failed, later channels do not matter. |
| IotaIoThingHandler.IotaIoThingHandler.constructor | extensions/io/org.eclipse.smarthome.io.iota/src/main/java/org/eclipse/smarthome/io/iota/handler/IotaIoThingHandler.java:64-76 | The handler starts with no configs, no balances, refresh 0 and the default node. |
| IotaIoThingHandler.IotaIoThingHandler.HandleCommand | extensions/io/org.eclipse.smarthome.io.iota/src/main/java/org/eclipse/smarthome/io/iota/handler/IotaIoThingHandler.java:79-95 | An unknown channel or another command does nothing; a refresh re-emits the codec's value when there is one. |
| IotaIoThingHandler.IotaIoThingHandler.InstallOne | extensions/io/org.eclipse.smarthome.io.iota/src/main/java/org/eclipse/smarthome/io/iota/handler/IotaIoThingHandler.java:110-124 | A known channel is kept; a new balance channel gets a config; another type throws. |
| IotaIoThingHandler.IotaIoThingHandler.InstallChannels | extensions/io/org.eclipse.smarthome.io.iota/src/main/java/org/eclipse/smarthome/io/iota/handler/IotaIoThingHandler.java:109-125 | The loop does what `InstallFrom` computes, keeping existing configs. |
| IotaIoThingHandler.IotaIoThingHandler.Initialize | extensions/io/org.eclipse.smarthome.io.iota/src/main/java/org/eclipse/smarthome/io/iota/handler/IotaIoThingHandler.java:98-131 | Refresh, host, protocol and port are read from the configuration, the channels set up, and the refresh job started only for a Thing with channels. |
| IotaIoThingHandler.IotaIoThingHandler.Dispose | extensions/io/org.eclipse.smarthome.io.iota/src/main/java/org/eclipse/smarthome/io/iota/handler/IotaIoThingHandler.java:134-142 | The job is cancelled when scheduled, every config drops its listener, and the configs are cleared. |
| IotaIoThingHandler.IotaIoThingHandler.ReceivePayment | extensions/io/org.eclipse.smarthome.io.iota/src/main/java/org/eclipse/smarthome/io/iota/handler/IotaIoThingHandler.java:204-266 | The listener's books change as `Receive` specifies. |
| IotaIoThingHandler.IotaIoThingHandler.SettleBalance | extensions/io/org.eclipse.smarthome.io.iota/src/main/java/org/eclipse/smarthome/io/iota/handler/IotaIoThingHandler.java:185-280 | The books and balances change as `Settle` specifies. |
| IotaIoThingHandler.IotaIoThingHandler.RefreshChannel | extensions/io/org.eclipse.smarthome.io.iota/src/main/java/org/eclipse/smarthome/io/iota/handler/IotaIoThingHandler.java:171-280 | The reported balance is the channel's answer in Miota or the running balance. The channel's codec takes that text and its listener gets it exactly when a listener and codec are set and the codec accepts it. No other config changes. A missing config or codec is a NullPointerException, and otherwise books and balances become `Settle`'s. |
| IotaIoThingHandler.IotaIoThingHandler.RefreshTurn | extensions/io/org.eclipse.smarthome.io.iota/src/main/java/org/eclipse/smarthome/io/iota/handler/IotaIoThingHandler.java:171-280 | One turn of the channel loop takes the books and balances one channel further along `Tick`. |
| IotaIoThingHandler.IotaIoThingHandler.GetBalance | extensions/io/org.eclipse.smarthome.io.iota/src/main/java/org/eclipse/smarthome/io/iota/handler/IotaIoThingHandler.java:166-283 | The outcome, the listener's books and the stored balances are `Tick` over the channels' configs as the tick found them; on success the balances are `BalanceMap` of the answers, and the books only grow. |
| IotaIoThingHandler.IotaIoThingHandler.BalanceTick | extensions/io/org.eclipse.smarthome.io.iota/src/main/java/org/eclipse/smarthome/io/iota/handler/IotaIoThingHandler.java:148-158 | A tick leaves outcome, books and balances as `Tick` computes; an exception takes the Thing offline with its message. |
| IotaService.Replace | extensions/io/org.eclipse.smarthome.io.iota/src/main/java/org/eclipse/smarthome/io/iota/metadata/IotaService.java:85 | `metadataRegistry.update` replaces exactly the entry with the same UID. |
| IotaService.ReplaceTwice | extensions/io/org.eclipse.smarthome.io.iota/src/main/java/org/eclipse/smarthome/io/iota/metadata/IotaService.java:116-117 | A second update of the same entry wins over the first. |
| IotaService.WithoutItem | extensions/io/org.eclipse.smarthome.io.iota/src/main/java/org/eclipse/smarthome/io/iota/metadata/IotaService.java:196-206 | The registry without the item holds exactly the other entries. |
| IotaService.WithoutItemKeepsOthers | extensions/io/org.eclipse.smarthome.io.iota/src/main/java/org/eclipse/smarthome/io/iota/metadata/IotaService.java:196-206 | Removing an item without metadata leaves the registry unchanged. |
| IotaService.ChosenSeed | extensions/io/org.eclipse.smarthome.io.iota/src/main/java/org/eclipse/smarthome/io/iota/metadata/IotaService.java:80-118 | A valid configured seed (non-empty, 81 characters) is used, otherwise a generated one. |
| IotaService.KeysAfter | extensions/io/org.eclipse.smarthome.io.iota/src/main/java/org/eclipse/smarthome/io/iota/metadata/IotaService.java:125-139 | In restricted mode a non-empty key is stored, a missing key is generated, an empty key stores nothing; otherwise the keys are unchanged. |
| IotaService.WrittenBack | extensions/io/org.eclipse.smarthome.io.iota/src/main/java/org/eclipse/smarthome/io/iota/metadata/IotaService.java:80-139 | The metadata written back keeps its UID and value, carries the new seed when it was replaced and the new key when one was generated. |
| IotaService.ProvisionFailure | extensions/io/org.eclipse.smarthome.io.iota/src/main/java/org/eclipse/smarthome/io/iota/metadata/IotaService.java:125-168 | A missing mode fails; in restricted mode an unreadable price fails; a charging stream never fails. |
| IotaService.IotaService.constructor | extensions/io/org.eclipse.smarthome.io.iota/src/main/java/org/eclipse/smarthome/io/iota/metadata/IotaService.java:46-54 | The service starts with the registries given and no item listened to. |
| IotaService.IotaService.UpdateMaps | extensions/io/org.eclipse.smarthome.io.iota/src/main/java/org/eclipse/smarthome/io/iota/metadata/IotaService.java:214-219 | The item is linked to the seed, the seed gets a debouncer, and new utils with start 0 or NumberFormatException for a non-numeric port. |
| IotaService.IotaService.ProvisionSeed | extensions/io/org.eclipse.smarthome.io.iota/src/main/java/org/eclipse/smarthome/io/iota/metadata/IotaService.java:80-118 | The seed chosen is `ChosenSeed`; a valid known seed only gains the link; otherwise the maps are created with the start sentinel and the seed is written back. |
| IotaService.IotaService.ProvisionKey | extensions/io/org.eclipse.smarthome.io.iota/src/main/java/org/eclipse/smarthome/io/iota/metadata/IotaService.java:125-139 | The keys become `KeysAfter`, and a generated key is written back to the registry. |
| IotaService.IotaService.ProvisionPayment | extensions/io/org.eclipse.smarthome.io.iota/src/main/java/org/eclipse/smarthome/io/iota/metadata/IotaService.java:141-168 | A charging stream starts unpaid without handshake, with its wallet, price and RSA keys; otherwise nothing is set. |
| IotaService.IotaService.ProvisionStream | extensions/io/org.eclipse.smarthome.io.iota/src/main/java/org/eclipse/smarthome/io/iota/metadata/IotaService.java:121-180 | The key and payment branches follow the seed, then the item is listened to and its state published. |
| IotaService.IotaService.Provision | extensions/io/org.eclipse.smarthome.io.iota/src/main/java/org/eclipse/smarthome/io/iota/metadata/IotaService.java:58-188 | `added` for metadata it acts on: the seed, the key, the payment terms and the listener, in that order. |
| IotaService.IotaService.Added | extensions/io/org.eclipse.smarthome.io.iota/src/main/java/org/eclipse/smarthome/io/iota/metadata/IotaService.java:58-188 | Metadata it does not act on changes nothing. |
| IotaService.IotaService.Updated | extensions/io/org.eclipse.smarthome.io.iota/src/main/java/org/eclipse/smarthome/io/iota/metadata/IotaService.java:196-206 | A new value "no" for a known item stops listening to it and drops its metadata; a null value is a NullPointerException; anything else changes nothing. |

## Left out

- Subprocess execution and the Node.js MAM scripts: their output is a parameter (`IotaUtils.FetchOutput`, `IotaUtils.PublishOutput`); only the command lines and the parsing of the answers are modelled.
- `IotaUtils()` without arguments and `checkAPI`: the first leaves the node null and is not used by the modelled code; the second is a ledger call.
- Ledger and crypto calls (jota `getBalances`, `findTransactionObjectsByAddresses`, `sendTransfer`, `getNodeInfo`; `RSAUtils`; `TrytesConverter`): uninterpreted parameters that may fail; a null from `TrytesConverter.toString` is None.
- `getNextRoot`, `checkTransactionStatus` and `startHandshake` are not part of the adapter class in the repository; they are parameters, and a handshake is recorded as a call on the adapter.
- Scheduling, `Debouncer` timing, `synchronized` and `ScheduledFuture.cancel`: one job run is one method call (`DataTick`, `PaymentTick`, `BalanceTick`), a debounced flush is an explicit `Flush`, and a debouncer holds only the last request scheduled on it (a later `debounce` replaces the earlier runnable; a new Debouncer from `updateMaps` keeps whatever was pending).
- Only the last refresh job scheduled is held by a handler (the Java fields keep only the last `ScheduledFuture`); jobs scheduled earlier are not modelled.
- A payment refresh job captures its channel UID when it is scheduled; the model passes the UID to each `PaymentTick`.
- Floating point: prices, thresholds and balances are exact rationals (`real`); `(int)(price * 1000000)` for the transfer amount, `Double.parseDouble`, `String.valueOf(double)` (a `show` parameter) and IEEE rounding in `Math.abs(a - b) == price` are not modelled.
- Common.ToUpper: case mapping is ASCII-only and locale-free. JavaScript's and Java's `toUpperCase` map every Unicode letter and can lengthen a string ("ß" becomes "SS"), so the program publishes "CAFÉ" for "café" where the model has "CAFé".
- Common.LowerOfUpper: holds for the ASCII mapping only; with Unicode mapping lower-casing "SS" (the upper case of "ß") gives "ss", not "ß". Java's locale-dependent `toLowerCase` (Turkish dotless i) is not modelled either.
- Common.UpperKeepsCaseInsensitiveEquality: holds for the ASCII mapping only; the program compares "strasse" with "straße" for a topic "straße" and finds them different.
- MamJson.PublishedRecord: upper-cases only ASCII letters of name, topic and state, where the publish script upper-cases the whole payload with Unicode `toUpperCase`.
- ChannelRouter.PublishedEntryReachesItsTopic: in the program it holds only for topics whose upper and lower case round-trip; an entry published with the topic "straße" reaches no channel.
- ChannelSetup.SplitPattern: the transformation type is upper-cased in its ASCII letters only (blankness follows `Character.isWhitespace`).
- IotaThingHandler.Advance and PaymentSender.Decide: a NEXTROOT that is not a JSON string (`MamJson.JsonValue.JOther`) is an IllegalStateException; Gson's `getAsString` would read a number or a one-element array as text.
- IotaIoThingHandler.RecognitionIsFirstExactPayment: the balance change is compared with the price exactly, not with double equality.
- PaymentSender.PaymentBook.SendPaymentToWallet: the transfer records the price in Miota, not the `(int)(price * 1000000)` iota amount, the tag or the trytes conversion of the message.
- The test-only node of `sendPaymentToWallet` (`nodes.testnet.iota.org:443`) and the hard-coded `localhost:14700` ledger are constants; the ledger's answer is a parameter (`PaymentSender.Ledger`).
- A paying wallet unknown to the listener is a NullPointerException on the payment path (`IotaIoThingHandler.Receive`); the lookups the Java code then makes with a null seed are not followed.
- The framework's `Configuration` normalisation of numbers (every number is a BigDecimal) is assumed; entries are `ChannelSetup.ConfigValue`.
- Number, percent and on/off codecs (`NumberValue`, `PercentValue`, `OnOffValue`) are reduced to whether they accept a payload (a `parses` oracle) and their initial state; the states they compute from a payload are not.
- `OnOffValue.java` is not part of this model, so an on/off codec is taken to start with no state.
- Metadata values read through `toString()` are assumed to be texts, and every item is a `GenericItem` (other items are not acted on by `added` and are not modelled).
- The comparison `channelUID.toString().equals(...)` is UID equality, and a Thing's channel UIDs are assumed distinct.
- `Integer.parseInt` is modelled for ASCII digits only.
- JSON string escaping in the published payload (`MamJson.ItemsJson`) is not modelled.
- `thingRegistry.add` failures and `updateThing` are not modelled: the created Thing is recorded, and the channel list is the handler's field.
- The payment handler's `handleCommand` does nothing and is not modelled; `channelStateUpdated`, the getters and setters of the handlers, `stop` and `setMetadataRegistry`/`setItemListener`/`setBridge` are framework glue.
- The listener's invariant that every seed with an adapter also has a debouncer is not stated; the flush handles a missing adapter as a NullPointerException.
- Logging, `IotaBridgeHandler`, the handler factories, constants classes, metadata providers, registry listeners and the superseded copies of `IotaService`, `IotaUtils` and `IotaHandler` are not part of this model.
