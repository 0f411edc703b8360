# TikTok chat relay server: per-socket session model

This project models the core of `server.js` in a Dafny 4 project. That core is
the per-socket logic of the relay server. A client connects over socket.io and
sends `setUniqueId(uniqueId, options)`. The server then:

- sanitises the options;
- consults the rate limiter, if rate limiting is enabled;
- creates and connects a `TikTokConnectionWrapper` for the requested room;
- registers listeners that relay upstream events to the socket.

Events of the `gift` type are not relayed. Their gift name is dispatched
through a 51-case `switch` to a handler function. When the socket
disconnects, the wrapper is disconnected if one was ever assigned.

Modules, one per concern:

- `Wrappers` (wrappers.dfy): `Option`.
- `Js` (js.dfy): the JavaScript values crossing the boundary, truthiness, and
  property reads that can throw.
- `Options` (options.dfy): the environment values, the caller's mutable
  options object (a class over a map), the sanitisation specification
  `Sanitized` and the in-place method `SanitizeOptions`.
- `Gifts` (gifts.dfy): the handler identifiers, the case labels, the `switch`
  (`GiftHandler`) and its label inverse (`Label`). One lemma per case, plus
  the general dispatch lemma and the distinctness of the labels.
- `Relay` (relay.dfy): the effect of one upstream event (`Route`,
  `GiftAction`, `Step` with the two one-shot relays), and the effects of a
  whole event sequence (`Relay`). Lemmas over any sequence of events cover
  order, the absence of `gift` emissions, one-shot lifecycle signals and
  handler call counts.
- `Session` (session.dfy): the start decision (`Decide`) and the
  `ConnectionWrapper` class (connect/disconnect counters, registered
  listeners). Also the `SocketConnection` class: the handler's
  `tiktokConnectionWrapper` variable, the socket's outbox and the limiter
  query count. `SetUniqueId` and `Disconnect` model the two handlers. Two
  client methods walk through a session and a repeated start.

Collaborators that are not part of this model are inputs:

- the limiter's verdict (`blocked`), from `limiter.js`;
- how the wrapper's constructor and `connect()` go (`WrapperBehaviour`), from
  `connectionWrapper.js`;
- the environment values `SESSIONID` and `ENABLE_RATE_LIMIT` (`Env`);
- the upstream events, fed to `ConnectionWrapper.Fire` or to `Relay`.

The gift handlers of `GiftResponse` are identifiers (`Gifts.Handler`).

Conventions:

- `null` for a `JsObject?` stands for every `options` value that is not a
  non-null object. All of these are discarded alike.
- JavaScript arrays are objects and are represented as `Obj` values keyed by
  index.
- A socket's `outbox` records the calls of `socket.emit` in order.

## Behaviour of the code worth knowing

- A second `setUniqueId` on the same socket is not refused. When it gets past
  the rate check and the wrapper's constructor returns, the variable is
  overwritten with the new wrapper. When it is rate-limited or the
  constructor throws, the variable keeps its earlier value (`SetUniqueId`
  states `wrapper == old(wrapper)` for `RateLimited` and `ConstructFailed`).
  In either case the previous wrapper is neither disconnected nor unwired, and
  its listeners keep emitting to the socket. On `disconnect` only the wrapper
  the variable holds is disconnected (`SetUniqueId` leaves the earlier
  wrapper's state unchanged; `RepeatedStartScenario`).
- The variable is assigned before `connect()` is called. When the constructor
  returns but `connect()` throws, the variable holds the new wrapper, and a
  later `disconnect` calls `disconnect()` on it, although no listeners were
  registered.
- `gift` events are never emitted to the socket; they are only dispatched to a
  handler.
- A fault inside a gift handler is not caught by this code.
- The limiter is asked once per request, and only when `ENABLE_RATE_LIMIT` is
  truthy; its answer is a yes/no verdict.
- Options are sanitised, which mutates the caller's object, before the rate
  check. A refused request still sanitises.

## Model

| member | source | states |
|---|---|---|
| Js.ReadProperty | server.js:120-121 | reading `msg.giftName` throws exactly when `msg` is null or undefined; an object's own property is returned as it is; any other read gives undefined |
| Options.Env.SessionIdSet | server.js:87 | `SESSIONID` counts as configured exactly when JavaScript finds its value truthy: set and not empty |
| Options.Env.RateLimitEnabled | server.js:93 | `ENABLE_RATE_LIMIT` enables rate limiting exactly when JavaScript finds its value truthy: set and not empty |
| Options.Sanitized | server.js:79-89 | neither `requestOptions` nor `websocketOptions` survives; every other caller key keeps its value, except `sessionId` when a session id is configured; no key is added but `sessionId`; a configured session id overrides the caller's, otherwise the caller's `sessionId` is kept exactly when present |
| Options.SanitizeOptions | server.js:78-89 | a caller object is cleaned in place and is itself what is forwarded; any other value is replaced by a fresh object; the forwarded properties are `Sanitized` of the caller's (or of none) |
| Options.JsObject.Delete | server.js:80-81 | `delete` removes the key and nothing else |
| Options.JsObject.Put | server.js:88 | assignment sets the key and nothing else |
| Options.NonObjectOptions | server.js:82-89 | a caller that sends no object ends up with only the configured session id, or with nothing |
| Options.SanitizeIdempotent | server.js:79-89 | sanitising an already sanitised map changes nothing |
| Gifts.CaseBravo | server.js:125-127 | the name `Bravo` selects `handleBravo`, and no other name selects it |
| Gifts.CaseRose | server.js:128-130 | the name `Rose` selects `handleRose`, and no other name selects it |
| Gifts.CaseHealthPotion | server.js:131-133 | the name `Health Potion` selects `handleHealthPotion`, and no other name selects it |
| Gifts.CaseTennis | server.js:134-136 | the name `Tennis` selects `handleTennis`, and no other name selects it |
| Gifts.CaseLoveLetter | server.js:137-139 | the name `Love Letter` selects `handleLoveLetter`, and no other name selects it |
| Gifts.CaseAlienPeaceSign | server.js:140-142 | the name `Alien Peace Sign` selects `handleAlienPeaceSign`, and no other name selects it |
| Gifts.CaseFootball | server.js:143-145 | the name `Football` selects `handleFootball`, and no other name selects it |
| Gifts.CaseGG | server.js:146-148 | the name `GG` selects `handleGG`, and no other name selects it |
| Gifts.CaseHiJuly | server.js:149-151 | the name `Hi July` selects `handleHiJuly`, and no other name selects it |
| Gifts.CaseMiniSpeaker | server.js:152-154 | the name `Mini Speaker` selects `handleMiniSpeaker`, and no other name selects it |
| Gifts.CaseLightningBolt | server.js:155-157 | the name `Lightning Bolt` selects `handleLightningBolt`, and no other name selects it |
| Gifts.CaseCoffee | server.js:158-160 | the name `Coffee` selects `handleCoffee`, and no other name selects it |
| Gifts.CaseIceCreamCone | server.js:161-163 | the name `Ice Cream Cone` selects `handleIceCreamCone`, and no other name selects it |
| Gifts.CaseWeights | server.js:164-166 | the name `Weights` selects `handleWeights`, and no other name selects it |
| Gifts.CaseTikTokLogo | server.js:167-169 | the name `TikTok Logo` selects `handleTikTokLogo`, and no other name selects it |
| Gifts.CaseGardenGnome | server.js:170-172 | the name `Garden Gnome` selects `handleGardenGnome`, and no other name selects it |
| Gifts.CaseSquirrel | server.js:173-175 | the name `Squirrel` selects `handleSquirrel`, and no other name selects it |
| Gifts.CaseDaisies | server.js:176-178 | the name `Daisies` selects `handleDaisies`, and no other name selects it |
| Gifts.CasePinkShoes | server.js:179-181 | the name `Pink Shoes` selects `handlePinkShoes`, and no other name selects it |
| Gifts.CaseDuckling | server.js:182-184 | the name `Duckling` selects `handleDuckling`, and no other name selects it |
| Gifts.CaseChic | server.js:185-187 | the name `Chic` selects `handleChic`, and no other name selects it |
| Gifts.CasePandas | server.js:188-190 | the name `Pandas` selects `handlePandas`, and no other name selects it |
| Gifts.CaseFingerHeart | server.js:191-193 | the name `Finger Heart` selects `handleFingerHeart`, and no other name selects it |
| Gifts.CaseMic | server.js:194-196 | the name `Mic` selects `handleMic`, and no other name selects it |
| Gifts.CaseHi | server.js:197-199 | the name `Hi` selects `handleHi`, and no other name selects it |
| Gifts.CaseCottonsShell | server.js:200-202 | the name `Cotton’s Shell` selects `handleCottonsShell`, and no other name selects it |
| Gifts.CaseDanceTogether | server.js:204-206 | the name `Dance Together` selects `handleDanceTogether`, and no other name selects it |
| Gifts.CaseGoose | server.js:207-209 | the name `Goose` selects `handleGoose`, and no other name selects it |
| Gifts.CaseLoveBalloon | server.js:210-212 | the name `LOVE Balloon` selects `handleLoveBalloon`, and no other name selects it |
| Gifts.CaseSwan | server.js:213-215 | the name `Swan` selects `handleSwan`, and no other name selects it |
| Gifts.CaseTikTokTrophy | server.js:216-218 | the name `TikTok Trophy` selects `handleTikTokTrophy`, and no other name selects it |
| Gifts.CaseShoes | server.js:219-221 | the name `Shoes` selects `handleShoes`, and no other name selects it |
| Gifts.CaseSilverGummy | server.js:222-224 | the name `Silver Gummy` selects `handleSilverGummy`, and no other name selects it |
| Gifts.CasePearl | server.js:225-227 | the name `Pearl` selects `handlePearl`, and no other name selects it |
| Gifts.CaseTrain | server.js:228-230 | the name `Train` selects `handleTrain`, and no other name selects it |
| Gifts.CaseBadminton | server.js:231-233 | the name `Badminton` selects `handleBadminton`, and no other name selects it |
| Gifts.CaseTravelWithYou | server.js:234-236 | the name `Travel With You` selects `handleTravelWithYou`, and no other name selects it |
| Gifts.CaseDinosaur | server.js:237-239 | the name `Dinosaur` selects `handleDinosaur`, and no other name selects it |
| Gifts.CaseDiscoBall | server.js:240-242 | the name `Disco Ball` selects `handleDiscoBall`, and no other name selects it |
| Gifts.CaseEmailMessage | server.js:243-245 | the name `Email Message` selects `handleEmailMessage`, and no other name selects it |
| Gifts.CaseGalaxy | server.js:246-248 | the name `Galaxy` selects `handleGalaxy`, and no other name selects it |
| Gifts.CaseGerryTheGiraffe | server.js:249-251 | the name `Gerry the Giraffe` selects `handleGerryTheGiraffe`, and no other name selects it |
| Gifts.CaseGoldGummy | server.js:252-254 | the name `Gold Gummy` selects `handleGoldGummy`, and no other name selects it |
| Gifts.CaseGoldMine | server.js:255-257 | the name `Gold Mine` selects `handleGoldMine`, and no other name selects it |
| Gifts.CaseMagicLamp | server.js:258-260 | the name `Magic Lamp` selects `handleMagicLamp`, and no other name selects it |
| Gifts.CaseMirrorFlower | server.js:261-263 | the name `Mirror Flower` selects `handleMirrorFlower`, and no other name selects it |
| Gifts.CaseSpace | server.js:264-266 | the name `Space` selects `handleSpace`, and no other name selects it |
| Gifts.CaseWatermelonLove | server.js:267-269 | the name `Watermelon Love` selects `handleWatermelonLove`, and no other name selects it |
| Gifts.CaseDiamondTree | server.js:270-272 | the name `Diamond Tree` selects `handleDiamondTree`, and no other name selects it |
| Gifts.CaseFireworks | server.js:273-275 | the name `Fireworks` selects `handleFireworks`, and no other name selects it |
| Gifts.CaseDiamond | server.js:276-278 | the name `Diamond` selects `handleDiamond`, and no other name selects it |
| Gifts.Label | server.js:124-278 | the case label of handler `h`, which the `switch` maps back to `h` |
| Gifts.GiftHandler | server.js:124-281 | the `switch` itself; it carries no ensures of its own and is characterised by the Case lemmas, Dispatch, Unmatched and LabelInjective |
| Gifts.Dispatch | server.js:124-281 | the `switch` selects handler `h` exactly when the name equals `h`'s case label |
| Gifts.LabelInjective | server.js:124-278 | the 51 case labels are pairwise distinct, so the dispatch is a function and no case is shadowed |
| Gifts.Unmatched | server.js:279-280 | the `default` branch is taken exactly for names equal to no case label |
| Gifts.MatchIsLiteral | server.js:124-281 | matching is case-sensitive and literal: `rose`, `Rose ` and `Cotton's Shell` with an ASCII apostrophe select nothing; the label with U+2019 selects `handleCottonsShell` |
| Relay.GiftAction | server.js:118-283 | the gift listener never emits; it throws exactly for a null or undefined message; it does nothing exactly for a falsy `giftName`; an invoked handler's label equals the name; a logged name is truthy and equals no case label |
| Relay.GiftInvokes | server.js:118-283 | a gift event invokes handler `h` exactly when its `giftName` is the string `h`'s label |
| Relay.Route | server.js:112-292 | a message event is emitted exactly when it is one of the twelve relayed names or `streamEnd`, under its own name with the payload unchanged (`streamEnd` without arguments); `gift` is never emitted and goes to the gift listener; other names do nothing |
| Relay.Step | server.js:108-117 | a message event goes through `Route` and leaves the one-shot relays as they were; a `connected` (`disconnected`) event emits `tiktokConnected` (`tiktokDisconnected`) with its payload exactly when that relay is still registered, and afterwards it is not; a relay once removed is never registered again |
| Relay.Relay | server.js:108-292 | the effects of a session's events in arrival order: at most one per event, and events without effect leave no entry |
| Relay.NeverEmitsGift | server.js:115-292 | over any sequence of upstream events no `gift` event is sent to the socket |
| Relay.ForwardsInOrder | server.js:115-292 | over any sequence of events the relayed message emissions are exactly the relayable message events, in arrival order, each once, payload unchanged |
| Relay.LifecycleOnce | server.js:108-109 | `tiktokConnected` and `tiktokDisconnected` are each sent once if the corresponding wrapper event occurs while its one-shot relay is registered, and never otherwise |
| Relay.InvocationsMatchGifts | server.js:118-283 | over any sequence of events each handler runs exactly as many times as gift events name its case label |
| Session.StartOutcome.Reply | server.js:93-105 | a refused request sends exactly one `tiktokDisconnected` (the fixed limit text, or the error's string); a started one sends nothing |
| Session.Decide | server.js:92-105 | refused by the limiter exactly when rate limiting is enabled and the client is blocked; otherwise the wrapper's constructor or connect() failure is reported with its error; started exactly when neither happens |
| Session.VerdictIgnoredWhenDisabled | server.js:93 | with rate limiting disabled the limiter's verdict changes nothing |
| Session.RateLimitFlagIsTruthiness | server.js:93 | `ENABLE_RATE_LIMIT` is read for truthiness: `false` as text enables it; empty or unset does not |
| Session.ConnectionWrapper.constructor | server.js:100 | a new wrapper holds the room id and the sanitised options, is not yet connected and has no listeners |
| Session.ConnectionWrapper.Connect | server.js:101 | counts one connect() call and changes nothing else |
| Session.ConnectionWrapper.Disconnect | server.js:297 | counts one disconnect() call and changes nothing else |
| Session.ConnectionWrapper.Listen | server.js:108-292 | registers the listeners for one socket with both one-shot relays armed |
| Session.ConnectionWrapper.Fire | server.js:108-292 | without listeners an event does nothing; with them the wrapper's new one-shot state and the effect are `Step`'s, and exactly the emitted event is appended to the socket's outbox |
| Session.SocketConnection.constructor | server.js:73 | a new socket has no wrapper, has sent nothing and has not been rate-checked |
| Session.SocketConnection.Send | server.js:94 | `socket.emit` appends exactly that emission to the outbox and changes nothing else |
| Session.SocketConnection.SetUniqueId | server.js:77-106 | the caller's options are sanitised even when the request is refused; the limiter is asked once exactly when rate limiting is enabled; the socket receives `Decide`'s reply; a refused or failed construction keeps the old wrapper; otherwise a fresh wrapper with the sanitised options is connected once and becomes the variable's value, with listeners only when connect() returned; a previous wrapper is left untouched |
| Session.SocketConnection.Disconnect | server.js:295-299 | disconnect() is called once on the wrapper if one was assigned, and nothing happens otherwise |

## Left out

- HTTP and socket.io server construction, CORS, static file serving and the listening port (server.js:62-70, 307-313): network plumbing.
- The 5-second `statistic` broadcast and `getGlobalConnectionCount` (server.js:303-305): timer-driven, and the counter lives in `connectionWrapper.js`, which is not part of this model.
- The internals of `clientBlocked` (`limiter.js`), `TikTokConnectionWrapper` (`connectionWrapper.js`) and the `GiftResponse` handlers: none of these files is part of this model. Their answers are inputs; the handlers are opaque identifiers, and what a handler does or throws is not modelled.
- `process.env` and `dotenv`: the two environment values are the `Env` parameter.
- Console output other than "Unhandled gift": the origin line (server.js:75), "Using SessionId" (server.js:89) and "gift: ... received" (server.js:122) are not recorded.
- The text of an error's `toString()`: the `WrapperBehaviour` input carries the resulting string.
- What happens after a listener throws (`Throw`, for a null or undefined gift message): propagation into the upstream client library is outside this file. The sequence model keeps going with the next event.
- JavaScript numbers are modelled as integers. NaN, fractions and -0 are not represented, so neither is the falsiness of NaN.
- Delivery by socket.io: the outbox records emit calls. Whether a closed socket drops them is socket.io behaviour.
- The wrapper keeps a copy of the sanitised properties, not a reference to the options object. Nothing mutates that object after the call, so the two are indistinguishable here.
- The `uniqueId` argument is passed to the wrapper unchanged and not inspected, as in the code.
- The constant third argument `true` of the wrapper's constructor (server.js:100) is not modelled: its meaning lies inside `connectionWrapper.js`.
