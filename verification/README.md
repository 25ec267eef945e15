# conq.io core, modelled in Dafny

conq.io is a browser tank game with a Node.js server. The two sides talk over
a WebSocket in binary frames. The first two bytes of a frame are a header:
the top four bits are a *main* channel (system 0, game 1, debug 2) and the
low twelve bits are a *sub* number. After the header comes a BSON body,
checked against a template object. This project models the parts of the game
that decide what happens to that data:

- **Framing and routing.** The header arithmetic (`framing.dfy`). The
  resolver registry that maps (main, sub) to a receiver, with `set`,
  `unset`, `call` and the binders `do`/`ignore` (`resolvers.dfy`).
- **The server socket layer** (`serversocket.dfy`). The `SocketHandler`
  fan-out, the open/close state listeners and `ResolverProperty`. The
  `Server` keeps the live client set, routes packets and sends through the
  `out` sink.
- **The alternative server** (`servercore.dfy`). Its binder's `do` takes a
  list of receivers.
- **Client addressing** shared by both servers (`addressing.dfy`): `select`,
  `exist` and `to`.
- **The browser socket** (`clientsocket.dfy`). It uses the same registry; its
  `onmessage`, `onopen` and `onclose` are modelled as written.
- **The template serializer** (`serializer.dfy`). Template validation
  (`validateObject`, `validatePrimitive`, `validateArray`), the header padding
  (`toArrayBuffer`, `toNativeBuffer`) and `encode`/`decode`.
- **The numeric helpers** (`utilities.dfy`, `serverutilities.dfy`).
  JavaScript's truncating `%`, `modulo`, `wrap`, `wrapAngle`, `| 0` and the
  drift-free `HighResolutionTimer`, in the client's and the server's copies.
- **2-D vectors and matrices** (`vector.dfy`).
- **The client engine**:
  - the keyboard bit mask (`keyboard.dfy`);
  - the snapshot interpolators (`interpolation.dfy`);
  - the `ConcreteEngine` snapshot merge and per-frame update (`engine.dfy`);
  - the colour formatting (`colors.dfy`).

Some things are parameters rather than part of the model:

- clocks and timer handles;
- the BSON coder;
- the transport;
- `vec2.angle`.

Callbacks are opaque handles. The model records which ones run; it does not
model what they do. JavaScript numbers are `real`. Where NaN, `undefined` or
an exception matters, it appears as an `Option` or as an outcome datatype.

## Model

| member | source | states |
|---|---|---|
| Framing.HeaderValue | src/server/socket.ts:291 | `getUint16(0)` reads the big-endian value `b0 * 256 + b1` |
| Framing.SplitHeader | src/server/socket.ts:291-293 | `>> 12` and `& 0xFFF` give main < 16 and sub = header mod 4096, and main·4096 + sub recombines to the header |
| Framing.ServerRoute | src/server/socket.ts:284-293 | a frame under two bytes has no route; otherwise main < 16, sub < 4096, and the pair recombines to the header value |
| Framing.RouteUnique | src/server/socket.ts:291-293 | two (main, sub) pairs in range with the same header value are equal |
| Framing.Frame | src/server/socket.ts:284-293 | for every main < 16 and sub < 4096 there is a two-byte frame that routes back to exactly that pair |
| Framing.ClientRouteOf | src/public/socket.ts:147-155 | the browser's `getUint16(0)` fails exactly on frames under two bytes, and otherwise gives the server's route |
| Resolvers.FindIndex | src/server/socket.ts:69-78 | the first index whose entry has the key, or -1 exactly when no entry has it |
| Resolvers.FirstMatch | src/server/socket.ts:70-73 | an index with the key and none before it is the one the search returns |
| Resolvers.LookupUnique | src/server/socket.ts:69-97 | with unique keys, a lookup gives r exactly when the entry (main, sub, r) is in the list |
| Resolvers.UpsertShape | src/server/socket.ts:69-78 | `set` overwrites the first entry with the key in place, or appends when none has it |
| Resolvers.UpsertLookup | src/server/socket.ts:69-78 | after `set`, the key maps to the new receiver and every other key maps as before |
| Resolvers.UpsertUnique | src/server/socket.ts:69-78 | `set` keeps at most one entry per key |
| Resolvers.RemoveFirstShape | src/server/socket.ts:80-89 | `unset` leaves a list without the key unchanged and otherwise splices out the first entry with the key |
| Resolvers.RemoveFirstLookup | src/server/socket.ts:80-89 | on a list with unique keys, after `unset` the key has no receiver, the other keys are unchanged, and keys stay unique |
| Resolvers.RemoveFirstUnique | src/server/socket.ts:80-89 | `unset` keeps keys unique |
| Resolvers.RemoveFirstMisses | src/server/socket.ts:80-89 | with unique keys, `unset` removes the key's only entry |
| Resolvers.RemoveFirstKeeps | src/server/socket.ts:80-89 | `unset` of one key does not change the lookup of any other key |
| Resolvers.SpliceShifts | src/server/socket.ts:85 | `splice(i, 1)` shifts every later entry down by one |
| Resolvers.MatchingMembers | src/server/socket.ts:91-97 | `call` invokes exactly the receivers registered under the key, and with unique keys at most one |
| Resolvers.MatchingIsLookup | src/server/socket.ts:91-97 | with unique keys, `call` invokes the looked-up receiver and nothing else |
| Resolvers.UpsertAllSnoc | src/server/socket.ts:131-135 | binding one more sub after a list is one more `set` |
| Resolvers.UpsertTwice | src/server/socket.ts:69-78 | two `set`s on one key: the second wins, and the list is as if only it had run |
| Resolvers.UpsertReceiversLast | src/server/server.ts:70-83 | setting a list of receivers on one key leaves only the last one registered |
| Resolvers.UpsertEachSingle | src/server/server.ts:70-83 | `do(r)` with a single receiver is the same as the one-receiver `do` |
| Resolvers.UpsertEachLast | src/server/server.ts:70-83 | `do` with a non-empty list of receivers is `do` with the list's last receiver |
| Resolvers.UpsertEachEmpty | src/server/server.ts:70-83 | `do([])` registers nothing |
| Resolvers.UpsertAllLookup | src/server/socket.ts:131-135 | after `do`, every bound sub maps to the callback, every other key is unchanged, and keys stay unique |
| Resolvers.RemoveAllLookup | src/server/socket.ts:137-141 | after `ignore`, no bound sub has a receiver, every other key is unchanged, and keys stay unique |
| Resolvers.ResolverManager.constructor | src/server/socket.ts:65-67 | the registry starts empty, with unique keys |
| Resolvers.ResolverManager.Set | src/server/socket.ts:69-78 | the list becomes the upsert of the old list, and unique keys are preserved |
| Resolvers.ResolverManager.Unset | src/server/socket.ts:80-89 | the list becomes the old list with the first match spliced out, and unique keys are preserved |
| Resolvers.ResolverManager.Call | src/server/socket.ts:91-97 | the receivers invoked are those of the matching entries, in list order |
| Resolvers.SubArray | src/server/socket.ts:175-181 | a single sub becomes a one-element list; a list is passed through |
| Resolvers.ResolverBinder.constructor | src/server/socket.ts:125-129 | the binder holds its registry, channel and subs |
| Resolvers.ResolverBinder.Do | src/server/socket.ts:131-135 | the registry becomes one `set` per sub in order, and unique keys are preserved |
| Resolvers.ResolverBinder.DoEach | src/server/server.ts:70-83 | the list variant: for each sub, each receiver is `set` in turn; a single receiver is wrapped into a one-element list; unique keys are preserved |
| Resolvers.ResolverBinder.SetReceivers | src/server/server.ts:75-77 | the registry becomes one `set` per receiver on the sub, in order, and unique keys are preserved |
| Resolvers.ResolverBinder.Ignore | src/server/socket.ts:137-141 | the registry becomes one `unset` per sub in order, and unique keys are preserved (what that leaves is `Resolvers.RemoveAllLookup`) |
| Addressing.Without | src/server/socket.ts:272 | deleting a client keeps exactly the other members, without repeats, and changes nothing when it is absent |
| Addressing.PresentMembers | src/server/socket.ts:191-208 | a listed selection keeps exactly the listed ids that are live, and is the whole list exactly when every listed id is live |
| Addressing.PresentCounts | src/server/socket.ts:193-198 | a listed live id is kept as often as it is listed |
| Addressing.RejectedProperties | src/server/socket.ts:199-201 | a predicate selection is exactly the live clients the predicate is false for, without repeats |
| Addressing.ClientSet.constructor | src/server/socket.ts:258 | the live set starts empty |
| Addressing.ClientSet.Add | src/server/socket.ts:267 | a new client goes to the end and an existing one keeps its place; no repeats |
| Addressing.ClientSet.Delete | src/server/socket.ts:272 | the client is removed; no repeats |
| Addressing.ClientProperty.constructor | src/server/socket.ts:187-189 | the property views the server's live set itself |
| Addressing.ClientProperty.Select | src/server/socket.ts:191-208 | the result is the selection of the live set: listed ids that are live, live ids the predicate rejects, or the single id |
| Addressing.ClientProperty.Exist | src/server/socket.ts:210-227 | on a list: whether every listed id is live; on a single id the answer is lost (undefined) |
| Addressing.Sink.constructor | src/server/socket.ts:21-22 | nothing has been emitted |
| Addressing.Sink.Emit | src/server/socket.ts:244 | the packet is appended to what was emitted |
| Addressing.SendSelector.constructor | src/server/socket.ts:235-239 | the selector holds the data, the sink and the client view |
| Addressing.SendSelector.To | src/server/socket.ts:241-245 | one packet per selected client, in selection order, each carrying the data |
| Addressing.Packets | src/server/socket.ts:241-245 | one packet per target, in order, each with the same data |
| ServerSocket.SocketHandler.constructor | src/server/socket.ts:21-24 | no listeners are attached |
| ServerSocket.SocketHandler.Attach | src/server/socket.ts:41-43 | the listener is appended |
| ServerSocket.SocketHandler.FanOut | src/server/socket.ts:26-39 | every attached listener receives the event, in attach order |
| ServerSocket.SocketHandler.Connect | src/server/socket.ts:26-29 | every listener receives the connect |
| ServerSocket.SocketHandler.Disconnect | src/server/socket.ts:31-34 | every listener receives the disconnect |
| ServerSocket.SocketHandler.Packet | src/server/socket.ts:36-39 | every listener receives the (client, data) packet |
| ServerSocket.StateWrapper.constructor | src/server/socket.ts:260-261 | a state listener starts as the no-op |
| ServerSocket.ResolverStateBinder.constructor | src/server/socket.ts:107-109 | the binder holds the shared wrapper |
| ServerSocket.ResolverStateBinder.Do | src/server/socket.ts:111-113 | the shared wrapper now holds the callback |
| ServerSocket.ResolverStateBinder.Ignore | src/server/socket.ts:115-117 | the shared wrapper holds the no-op again |
| ServerSocket.ResolverProperty.constructor | src/server/socket.ts:149-153 | the property holds the server's registry and wrappers |
| ServerSocket.ResolverProperty.System | src/server/socket.ts:155-157 | a fresh binder on channel 0 over the server's registry |
| ServerSocket.ResolverProperty.Game | src/server/socket.ts:159-161 | a fresh binder on channel 1 over the server's registry |
| ServerSocket.ResolverProperty.Debug | src/server/socket.ts:163-165 | a fresh binder on channel 2 over the server's registry |
| ServerSocket.ResolverProperty.Open | src/server/socket.ts:167-169 | a binder over the server's own open wrapper |
| ServerSocket.ResolverProperty.Close | src/server/socket.ts:171-173 | a binder over the server's own close wrapper |
| ServerSocket.Server.constructor | src/server/socket.ts:255-282 | the server attaches itself to the handler, with an empty live set, an empty registry and no-op state listeners |
| ServerSocket.Server.Connect | src/server/socket.ts:266-269 | the client joins the live set, and the open listener then runs and sees it live |
| ServerSocket.Server.Disconnect | src/server/socket.ts:271-274 | the client leaves the live set, and the close listener then runs and no longer sees it |
| ServerSocket.Server.OnPacket | src/server/socket.ts:284-295 | a frame under two bytes invokes nothing; otherwise exactly the receivers registered for its (main, sub) |
| ServerSocket.Server.Send | src/server/socket.ts:297-299 | a selector over the data, the server's sink and a view of the live set |
| ServerSocket.Server.Client | src/server/socket.ts:301-303 | a view of the live set itself |
| ServerSocket.Server.On | src/server/socket.ts:305-308 | a property over the server's own registry and listener wrappers |
| ServerSocket.OpenBindingReachesConnect | src/server/socket.ts:111-113 | binding `on.open` makes the next connect run that callback with the client live |
| ServerSocket.BoundPacketIsDelivered | src/server/socket.ts:284-295 | a frame for a bound game sub invokes exactly the bound callback |
| ServerCore.ResolverProperty.constructor | src/server/server.ts:95-97 | the property holds the server's registry |
| ServerCore.ResolverProperty.System | src/server/server.ts:99-101 | a fresh binder on channel 0 |
| ServerCore.ResolverProperty.Game | src/server/server.ts:103-105 | a fresh binder on channel 1 |
| ServerCore.ResolverProperty.Debug | src/server/server.ts:107-109 | a fresh binder on channel 2 |
| ServerCore.Server.constructor | src/server/server.ts:189-212 | the server attaches itself to the handler, with an empty live set and registry |
| ServerCore.Server.Connect | src/server/server.ts:198-200 | the id joins the live set |
| ServerCore.Server.Disconnect | src/server/server.ts:202-204 | the id leaves the live set |
| ServerCore.Server.OnPacket | src/server/server.ts:214-225 | a frame under two bytes invokes nothing; otherwise exactly the receivers registered for its (main, sub) |
| ServerCore.Server.Send | src/server/server.ts:227-229 | a selector over the data, the sink and a view of the live set |
| ServerCore.Server.Client | src/server/server.ts:231-233 | a view of the live set itself |
| ServerCore.Server.On | src/server/server.ts:235-237 | a property over the server's registry |
| ServerCore.LastReceiverWins | src/server/server.ts:70-83 | binding a list of receivers and routing a frame for one of the subs invokes only the list's last receiver |
| ClientSocket.CallListener | src/public/socket.ts:157-165 | calling an undefined listener is a TypeError, and a defined one is invoked |
| ClientSocket.ResolverStateBinder.constructor | src/public/socket.ts:58-60 | the binder holds a copy of the listener value |
| ClientSocket.ResolverStateBinder.Do | src/public/socket.ts:62-64 | only the binder's own copy is rebound |
| ClientSocket.ResolverStateBinder.Ignore | src/public/socket.ts:66-68 | the binder's own copy becomes the no-op |
| ClientSocket.ResolverProperty.constructor | src/public/socket.ts:100-104 | the property holds the registry and copies of the two listener values |
| ClientSocket.ResolverProperty.System | src/public/socket.ts:106-108 | a fresh binder on channel 0 |
| ClientSocket.ResolverProperty.Game | src/public/socket.ts:110-112 | a fresh binder on channel 1 |
| ClientSocket.ResolverProperty.Debug | src/public/socket.ts:114-116 | a fresh binder on channel 2 |
| ClientSocket.ResolverProperty.Open | src/public/socket.ts:118-120 | a binder holding a copy of the open listener value |
| ClientSocket.ResolverProperty.Close | src/public/socket.ts:122-124 | a binder holding a copy of the close listener value |
| ClientSocket.Socket.constructor | src/public/socket.ts:135-166 | an empty registry, not open, both listeners undefined |
| ClientSocket.Socket.OnMessage | src/public/socket.ts:147-155 | a frame under two bytes throws; otherwise the receivers for its route are invoked |
| ClientSocket.Socket.OnOpen | src/public/socket.ts:157-160 | the socket is open, and calling the open listener is the outcome |
| ClientSocket.Socket.OnClose | src/public/socket.ts:162-165 | the socket is closed, and calling the close listener is the outcome |
| ClientSocket.Socket.On | src/public/socket.ts:172-175 | a property over the socket's registry and copies of its listeners |
| ClientSocket.OpenBindingIsLost | src/public/socket.ts:118-120 | binding `on.open` does not reach the socket: opening still throws a TypeError |
| Serializer.PrimitiveIff | src/public/basic-serializer.ts:27-38 | the primitive check passes exactly on two booleans, two numbers or two strings |
| Serializer.ScanArrayPass | src/public/basic-serializer.ts:40-66 | the element scan passes exactly when every element passes against the first template element |
| Serializer.ScanArrayFirst | src/public/basic-serializer.ts:40-66 | a failing element scan reports the verdict of the first element that does not pass |
| Serializer.ScanObjectPass | src/public/basic-serializer.ts:4-25 | the field scan passes exactly when every field passes against the template's field at the same position |
| Serializer.ScanObjectFirst | src/public/basic-serializer.ts:4-25 | a failing field scan reports the verdict of the first field that does not pass |
| Serializer.ValidateArrayPass | src/public/basic-serializer.ts:40-66 | an array passes exactly when both are arrays and either the template is empty and so is the value, or the template is non-empty and every element passes against the template's first element |
| Serializer.ValidateObjectPass | src/public/basic-serializer.ts:4-25 | an object passes exactly when both are objects with the same number of own keys and every field passes against the template's field at the same position |
| Serializer.PrimitiveTemplate | src/public/basic-serializer.ts:19-20 | against a non-object template an element passes exactly when the primitive check does, and never throws; an undefined template always fails |
| Serializer.ElementNeverThrows | src/public/basic-serializer.ts:19-20 | without nulls, checking one element never throws |
| Serializer.ArrayNeverThrows | src/public/basic-serializer.ts:40-66 | without nulls, array validation never throws |
| Serializer.ScanArrayNeverThrows | src/public/basic-serializer.ts:57-64 | without nulls, the element scan never throws |
| Serializer.ObjectNeverThrows | src/public/basic-serializer.ts:4-25 | without nulls, object validation never throws |
| Serializer.ScanObjectNeverThrows | src/public/basic-serializer.ts:16-23 | without nulls, the field scan never throws |
| Serializer.ValueAt | src/public/basic-serializer.ts:17-18 | the i-th own value of an array or object |
| Serializer.Padded | src/public/basic-serializer.ts:68-74 | the buffer is `padding` zero bytes followed by the input |
| Serializer.Unpadded | src/public/basic-serializer.ts:76-83 | as written: no result under two bytes; otherwise `byteLength - 2` bytes read from offset `padding` |
| Serializer.Stripped | src/public/basic-serializer.ts:76-83 | the corrected conversion: the bytes after the padding, exactly when the buffer is at least that long |
| Serializer.HeaderRoundTrip | src/public/basic-serializer.ts:68-83 | with the two-byte header padding, stripping undoes padding |
| Serializer.DefaultPaddingLosesTail | src/public/basic-serializer.ts:76-83 | with the default padding 0 the conversion drops the last two bytes, so the round trip fails |
| Serializer.StrippedRoundTrip | src/public/basic-serializer.ts:68-83 | the corrected conversion undoes padding for every padding |
| Serializer.StrippedAgreesAtHeader | src/public/basic-serializer.ts:76-83 | at padding 2 the corrected and the as-written conversions agree |
| Serializer.ToArrayBuffer | src/public/basic-serializer.ts:68-74 | a fresh array holding the padded bytes |
| Serializer.ToNativeBuffer | src/public/basic-serializer.ts:76-83 | as written: fails under two bytes (negative length); otherwise a fresh array with the as-written conversion |
| Serializer.StripPadding | src/public/basic-serializer.ts:76-83 | corrected: a fresh array with the bytes after the padding, failing when the buffer is shorter than the padding |
| Serializer.DecodeAccepts | src/public/basic-serializer.ts:100-113 | decode yields v exactly when the stripped bytes deserialize to v, v is truthy, and v passes the template |
| Serializer.EncodeDecode | src/public/basic-serializer.ts:95-113 | a truthy value that passes the template and survives the coder decodes back to itself after encoding, at every padding |
| Serializer.DecodeAgreesAtHeader | src/public/basic-serializer.ts:76-113 | at padding 2, `decode` over the as-written `toNativeBuffer` gives the same answer as over the corrected one, for every buffer |
| Serializer.DecodeAsWrittenDefault | src/public/basic-serializer.ts:76-113 | at the default padding 0, the as-written `decode` yields v exactly when the buffer without its last two bytes deserializes to a truthy v that passes the template |
| Serializer.Codec.constructor | src/public/basic-serializer.ts:90-93 | the codec holds its template |
| Serializer.Codec.Encode | src/public/basic-serializer.ts:95-98 | a fresh array with the serialized bytes behind the padding |
| Serializer.Codec.Validate | src/public/basic-serializer.ts:115-117 | true exactly when `validateObject` passes against the template (a thrown TypeError counts as false); only an array or object passes; without nulls, a rejection is a plain failure, not an exception |
| Serializer.Codec.Decode | src/public/basic-serializer.ts:100-113 | the decode result; any value returned is truthy and passes the template |
| Utilities.Trunc | src/public/utilities.ts:3 | rounding toward zero: the integer within one of x on the side of zero |
| Utilities.TruncNegated | src/public/utilities.ts:3 | truncation commutes with negation |
| Utilities.CongruentTrans | src/public/utilities.ts:22-40 | congruence modulo m is transitive |
| Utilities.RemNonNegative | src/public/utilities.ts:11 | the truncated remainder of a non-negative dividend by a positive divisor lies in [0, b) |
| Utilities.RemDivisorSign | src/public/utilities.ts:11 | the truncated remainder does not depend on the divisor's sign |
| Utilities.RemDividendSign | src/public/utilities.ts:11 | negating the dividend negates the truncated remainder |
| Utilities.Rem | src/public/utilities.ts:11 | JavaScript `%`: the result has the dividend's sign, is smaller than the divisor in magnitude, and is congruent to the dividend |
| Utilities.PositiveRem | src/public/utilities.ts:10-12 | `((x % m) + m) % m` lies in [0, m) for m > 0, in (m, 0] for m < 0, and is congruent to x |
| Utilities.DropPeriod | src/public/utilities.ts:28-29 | subtracting one period keeps the congruence class |
| Utilities.Modulo | src/public/utilities.ts:10-12 | defined exactly for a non-zero modulus; the result lies in [0, m) or (m, 0] and is congruent to n |
| Utilities.Wrap | src/public/utilities.ts:33-40 | defined exactly when max differs from min; the result lies in [min, max] when min ≤ 0 ≤ max, and is congruent to the value modulo max − min |
| Utilities.WrapLeavesRange | src/public/utilities.ts:33-40 | as written, `wrap(5, 2, 4)` is 1, outside [2, 4] |
| Utilities.WrapInto | src/public/utilities.ts:33-40 | the corrected `wrap`: defined exactly when max differs from min; for min < max the result lies in (min, max] and is congruent to the value modulo max − min |
| Utilities.WrapIntoAgrees | src/public/utilities.ts:33-40 | when min < 0 ≤ max the source's `wrap` equals the corrected one |
| Utilities.CongruentClose | src/public/utilities.ts:33-40 | two values congruent modulo m and less than m apart are equal, so the representative in a range of width m is unique |
| Utilities.WrapAngle | src/public/utilities.ts:22-31 | an angle in (−π, π] differing from the input by whole turns |
| Utilities.WrapAngleIsWrap | src/public/utilities.ts:22-40 | `wrapAngle` is `wrap` over [−π, π] |
| Utilities.WrapAngleIdentity | src/public/utilities.ts:22-31 | an angle already in (−π, π] is unchanged |
| Utilities.RemSmall | src/public/utilities.ts:26-27 | `%` leaves a value in [0, b) unchanged |
| Utilities.RemSmallNegative | src/public/utilities.ts:26 | `%` leaves a value in (−b, 0) unchanged |
| Utilities.RemLarge | src/public/utilities.ts:27 | `%` takes one b off a value in [b, 2b) |
| Utilities.DegreesRadiansRoundTrip | src/public/utilities.ts:14-20 | `degrees` and `radians` are inverse |
| Utilities.ToInt32 | src/public/utilities.ts:3 | ECMAScript ToInt32 on an integer: in the signed 32-bit range, congruent modulo 2^32, the identity in range |
| Utilities.ToInteger | src/public/utilities.ts:2-4 | or-ing with 0 gives a signed 32-bit integer |
| Utilities.ToIntegerIdentity | src/public/utilities.ts:2-8 | or-ing with 0 is the identity on signed 32-bit integers, which are therefore `isInteger` |
| Utilities.IsIntegerIff | src/public/utilities.ts:6-8 | `isInteger` holds exactly for whole numbers in the signed 32-bit range |
| Utilities.HighResolutionTimer.constructor | src/public/utilities.ts:42-49 | no ticks, no timer, no start or current time, delta 0 |
| Utilities.HighResolutionTimer.Run | src/public/utilities.ts:51-68 | records the time, fixes the start on the first run, measures the delta from the previous run, counts the tick, arms the timer, and schedules the next tick at start + ticks·duration |
| Utilities.HighResolutionTimer.Stop | src/public/utilities.ts:70-75 | cancels and clears the pending timer and changes nothing else |
| Utilities.StopTwice | src/public/utilities.ts:70-75 | a second `stop` clears nothing |
| Utilities.StopAfterRun | src/public/utilities.ts:51-75 | `stop` after a run cancels exactly the timer that run armed |
| Utilities.RunTwice | src/public/utilities.ts:51-68 | the second of two runs measures the time elapsed since the first |
| ServerUtilities.HighResolutionTimer.constructor | src/server/utilities.ts:41-53 | no ticks, no timer, no start or current time, delta 0 |
| ServerUtilities.HighResolutionTimer.Run | src/server/utilities.ts:55-71 | as written: the delta is assigned only when the previous time is falsy, so it is NaN after the first run and stale after later ones; the schedule is the client's |
| ServerUtilities.HighResolutionTimer.Stop | src/server/utilities.ts:73-78 | as written: the branch runs only when no timer is pending, so nothing is ever cancelled |
| ServerUtilities.RunTwice | src/server/utilities.ts:55-71 | after a first run at a non-zero time, the delta is NaN and a second run leaves it NaN |
| ServerUtilities.StopAfterRun | src/server/utilities.ts:55-78 | a timer armed by a run is still armed after `stop` |
| Vector.Copy | src/server/vector.ts:4-6 | the copy equals the original |
| Vector.DotSelfFacts | src/server/vector.ts:20-22 | `dot(v, v)` is non-negative and zero exactly for the zero vector |
| Vector.Magnitude2 | src/server/vector.ts:28-30 | `dot(v, v)`, non-negative, zero exactly for the zero vector |
| Vector.CopyMat | src/server/vector.ts:69-71 | the copy equals the original |
| Vector.AddCommutative | src/server/vector.ts:8-10 | addition is commutative |
| Vector.AddAssociative | src/server/vector.ts:8-10 | addition is associative |
| Vector.SubtractUndoesAdd | src/server/vector.ts:8-14 | subtraction and addition undo each other |
| Vector.ScaleDistributes | src/server/vector.ts:8-18 | scaling distributes over addition |
| Vector.ScaleIdentity | src/server/vector.ts:16-18 | scaling by 1 is the identity, and by 0 gives zero |
| Vector.DotSymmetric | src/server/vector.ts:20-22 | the dot product is symmetric |
| Vector.CrossAntisymmetric | src/server/vector.ts:24-26 | the cross product is antisymmetric and zero on equal vectors |
| Vector.PerpendicularProperties | src/server/vector.ts:41-43 | the perpendicular is orthogonal, keeps the magnitude, and applied twice negates |
| Vector.TransformMultiply | src/server/vector.ts:73-79 | transforming by a product is transforming by each factor in turn |
| Vector.MultiplyAssociative | src/server/vector.ts:73-75 | matrix multiplication is associative |
| Vector.TransformAdditive | src/server/vector.ts:77-79 | `transform` is additive |
| Vector.TransformHomogeneous | src/server/vector.ts:77-79 | `transform` commutes with scaling |
| Keyboard.PutBitSpec | src/public/start.ts:99-109 | after a put the bit reads back as written, every other bit is unchanged, and a 4-bit mask stays below 16 |
| Keyboard.ClientKeyboard.constructor | src/public/start.ts:55-57 | `input & 0xF` keeps the integer's remainder modulo 16 |
| Keyboard.ClientKeyboard.Binary | src/public/start.ts:91-93 | the mask is in 0..15, and equals the stored input when that is a 4-bit mask |
| Keyboard.ClientKeyboard.Set | src/public/start.ts:99-101 | the bit is set, and a 4-bit mask stays one for bits 0..3 |
| Keyboard.ClientKeyboard.Clear | src/public/start.ts:103-105 | the bit is cleared, and a 4-bit mask stays one for bits 0..3 |
| Keyboard.ClientKeyboard.Put | src/public/start.ts:107-109 | the bit is written, and a 4-bit mask stays one for bits 0..3 |
| Keyboard.ClientKeyboard.SetLeft | src/public/start.ts:75-77 | writes bit 0 |
| Keyboard.ClientKeyboard.SetRight | src/public/start.ts:79-81 | writes bit 1 |
| Keyboard.ClientKeyboard.SetUp | src/public/start.ts:83-85 | writes bit 2 |
| Keyboard.ClientKeyboard.SetDown | src/public/start.ts:87-89 | writes bit 3 |
| Keyboard.KeyMask | src/public/start.ts:112-119 | the mask is below 16, and bits 0..3 are set exactly when A, D, W and S are pressed |
| Keyboard.KeyMaskValue | src/public/start.ts:112-119 | the mask's value is the sum of the pressed keys' place values: A 1, D 2, W 4, S 8 |
| Keyboard.KeyboardBinary | src/public/start.ts:381 | `getKeyboardInput(keys).binary` is that sum |
| Keyboard.GetKeyboardInput | src/public/start.ts:112-119 | a fresh 4-bit keyboard holding the pressed keys' mask |
| Interpolation.Lerp | src/public/start.ts:223-229 | the blend is the first end at 0, the second at 1, and constant when the ends agree |
| Interpolation.LerpVec | src/public/start.ts:160-162 | the component-wise blend, the first end at 0 and the second at 1 |
| Interpolation.LerpBetween | src/public/start.ts:223-229 | for t in [0, 1] the blend lies between its ends |
| Interpolation.PlayerOffset.constructor | src/public/start.ts:125-128 | the camera and its target both start at the position |
| Interpolation.PlayerOffset.Update | src/public/start.ts:130-133 | the camera moves by `factor` of the way to its target, and the target is unchanged |
| Interpolation.PlayerOffset.SetDestination | src/public/start.ts:135-137 | the target is replaced, and the camera is unchanged |
| Interpolation.OffsetApproach | src/public/start.ts:130-133 | one step leaves `1 − factor` of the remaining distance |
| Interpolation.InitialBullet | src/public/start.ts:149-153 | before and after both at the position |
| Interpolation.UpdatedBullet | src/public/start.ts:155-158 | the old after-sample becomes before, and the new position after |
| Interpolation.InitialBulletStill | src/public/start.ts:149-162 | a fresh bullet interpolator is drawn at its position at every fraction |
| Interpolation.UpdatedBulletEnds | src/public/start.ts:155-162 | after an update the blend runs from where the old one ended to the new position |
| Interpolation.BulletInterpolate.constructor | src/public/start.ts:149-153 | the initial bullet sample |
| Interpolation.BulletInterpolate.Update | src/public/start.ts:155-158 | the state becomes the updated sample |
| Interpolation.BulletInterpolate.CurrentPosition | src/public/start.ts:160-162 | the blend of the sample, before at 0 and after at 1 |
| Interpolation.AdjustAnglesClose | src/public/start.ts:204-210 | on wrapped angles, the adjustment leaves them at most π apart, each congruent to its input modulo 2π |
| Interpolation.InitialTank | src/public/start.ts:179-192 | before and after both at the given position, angle and health |
| Interpolation.UpdatedTankShifts | src/public/start.ts:194-210 | after-samples become before-samples, the arguments become after-samples, and the angles end at most π apart, each congruent to its source angle |
| Interpolation.InitialTankStill | src/public/start.ts:179-229 | a fresh tank interpolator is drawn at its sample at every fraction |
| Interpolation.Interpolate.constructor | src/public/start.ts:179-192 | the initial tank sample |
| Interpolation.Interpolate.Update | src/public/start.ts:194-210 | the state becomes the updated sample |
| Interpolation.Interpolate.CurrentPosition | src/public/start.ts:219-221 | the position blend, before at 0 and after at 1 |
| Interpolation.Interpolate.CurrentAngle | src/public/start.ts:223-225 | the angle blend, before at 0 and after at 1 |
| Interpolation.Interpolate.CurrentHealth | src/public/start.ts:227-229 | the health blend, before at 0 and after at 1 |
| Engine.FirstTank | src/public/start.ts:297-305 | the first old tank interpolator with the id, or none when no interpolator has it |
| Engine.FirstBullet | src/public/start.ts:317-326 | the first old bullet interpolator with the id, or none when no interpolator has it |
| Engine.MergeTanksShape | src/public/start.ts:294-310 | one tank interpolator per entry, in order, with the entry's id, name and after-sample; a known id starts where its old interpolator is drawn, a new one is at rest |
| Engine.MergeBulletsShape | src/public/start.ts:314-332 | one bullet interpolator per entry, in order, with the entry's id and after-position; a known id starts where its old interpolator is drawn, a new one is at rest |
| Engine.TankSamples | src/public/start.ts:249 | the sample of each tank interpolator, in order |
| Engine.BulletSamples | src/public/start.ts:255 | the sample of each bullet interpolator, in order |
| Engine.MergeTankList | src/public/start.ts:294-310 | the `resTank` loop builds fresh interpolators whose samples are the merge |
| Engine.MergeBulletList | src/public/start.ts:314-332 | the `resBullet` loop builds fresh interpolators whose samples are the merge |
| Engine.RestartUser | src/public/start.ts:287-288 | the user's interpolator restarts where it is drawn and moves to the snapshot position |
| Engine.Rebuild | src/public/start.ts:287-332 | the three rebuilds of the snapshot handler, from the previous entry lists |
| Engine.NextFraction | src/public/start.ts:376-379 | the fraction advances by `deltatime · 15` and is clamped at 1 |
| Engine.ConcreteEngine.constructor | src/public/start.ts:257-272 | the initial state of `init`: empty lists, fraction 0, no input, no keys, not shooting, the cursor and the user interpolator at the origin |
| Engine.ConcreteEngine.OnSnapshot | src/public/start.ts:281-345 | an invalid packet changes nothing; otherwise the interpolators are rebuilt from the previous entries, the new entries stored, the fraction reset, and the buffered input sent and emptied; the angle, shooting flag, cursor and pressed keys stay as they were |
| Engine.ConcreteEngine.Install | src/public/start.ts:336-344 | the handler's stores, and nothing else changes |
| Engine.ConcreteEngine.Update | src/public/start.ts:368-386 | aims while alive, sets the camera target, advances the fraction, and buffers one key mask and moves the camera unless four masks are already waiting; keeps at most four masks and a fraction ≤ 1; the entries, interpolators, pressed keys, shooting flag and cursor stay as they were |
| Engine.ConcreteEngine.KeyDown | src/public/start.ts:347-349 | the key code is added to the pressed set, and no other field changes |
| Engine.ConcreteEngine.KeyUp | src/public/start.ts:351-353 | the key code is removed from the pressed set, and no other field changes |
| Engine.ConcreteEngine.MouseDown | src/public/start.ts:359-361 | shooting is on, and no other field changes |
| Engine.ConcreteEngine.MouseUp | src/public/start.ts:363-365 | shooting is off, and no other field changes |
| Colors.HexDigit | src/public/start.ts:530 | the digit of 0..15 is a lowercase hex digit |
| Colors.Digits | src/public/start.ts:530 | `toString(16)` of a non-negative integer is a non-empty string of lowercase hex digits |
| Colors.DigitValue | src/public/start.ts:530 | reading a digit gives the value it was written from |
| Colors.DigitsRoundTrip | src/public/start.ts:530 | reading the digits back gives the number |
| Colors.DigitsLength | src/public/start.ts:530-531 | one digit below 16, two from 16 to 255 |
| Colors.LeadingZero | src/public/start.ts:531 | a leading zero does not change the value |
| Colors.ComponentToHexSpec | src/public/start.ts:529-532 | a component 0..255 becomes exactly two hex digits that read back as the component |
| Colors.RgbToHexSpec | src/public/start.ts:534-536 | three components become "#" followed by two digits per component, in order |
| Colors.TruncateComponent | src/public/start.ts:545 | or-ing a value in [0, 256) with 0 gives its integer part |
| Colors.BlendedComponent | src/public/start.ts:540-545 | a blended component of two in [0, 255], for t in [0, 1], truncates into 0..255 |
| Colors.InterpolateColorWellFormed | src/public/start.ts:538-546 | blending two colours with components in [0, 255] gives "#" and six hex digits whose pairs read back as the truncated blends of red, green and blue |

## Left out

- BSON: `serialize`/`deserialize` are function parameters. The model assumes nothing about them beyond what a lemma's own requires states.
- The WebSocket transport: uws on the server and `WebSocket` in the browser, with `send` and the connection URL. Packets handed to `out` are recorded in the `Sink`.
- `Date.now()` and the handle `setTimeout` returns are parameters of `run`. The timer callback and the re-arming by `setTimeout` are not modelled.
- Callbacks are opaque handles (`Callback`). The model records which callback is invoked and with what, but not its effect.
- Trigonometry and square roots: `magnitude`, `normalize`, `polar` and `angle` in src/server/vector.ts. `vec2.angle` enters `ConcreteEngine.Update` as a function parameter.
- `Math.PI` is an abstract positive constant.
- Rendering, the DOM, the mouse-move cursor update, `getParam` and the `Startup` boilerplate.
- IEEE-754 arithmetic. Numbers are exact reals. NaN appears only where the source produces it from `undefined` or a zero modulus, as `None`.
- `validateObject` pairs fields by position after `Object.keys(..).sort()`. Each object is taken with its fields already in that sorted order; the sort itself and the `Object.keys` ordering rules are not modelled. An array that reaches `validateObject` is paired by index; the string sort of its keys differs from that only beyond ten elements.
- src/server/server.ts types its listener's `connect`/`disconnect` as receiving the client id. The model adds and removes that id.
- The `console.log` diagnostic at src/public/start.ts:212-215: it only prints.
- `Colors.ToString16`: `toString(16)` is modelled for integers only. Fractional digits are not modelled.
- `Serializer.Padded`: only non-negative integer paddings are modelled.
- `Serializer.Codec.Decode`: decodes through the corrected buffer conversion, and so do `Serializer.DecodeAccepts` and `Serializer.EncodeDecode`. No caller of `encode` or `decode` appears in the repository, so the padding in use is unknown; `decode` defaults to 0. The as-written decode is `Serializer.DecodeAsWritten`. At padding 2 it agrees with the corrected one (`Serializer.DecodeAgreesAtHeader`); at 0 it drops the last two bytes (`Serializer.DecodeAsWrittenDefault`).
- `Engine.ConcreteEngine.OnSnapshot`: the decoded snapshot (`event.bpio`) is an `Option` input, and the reply is returned instead of sent.
- `Keyboard.ClientKeyboard.Set`: states the result through `PutBit` (setting bit k of a 32-bit value), with the bit-level facts in `Keyboard.PutBitSpec`, rather than restating them per call.
- `Keyboard.ClientKeyboard.constructor`: the input is taken as an integer; the bitwise and with 0xF on a fractional number is not modelled.
- `Utilities.ToInteger`: covers the ToInt32 wrap-around of or-ing with 0 on finite numbers; infinities and NaN are not modelled.

## Findings

| source | as written | input that shows it | evidently intended | confidence | as-written member | corrected member |
|---|---|---|---|---|---|---|
| src/public/basic-serializer.ts:76-83 | `toNativeBuffer` copies `byteLength - 2` bytes from offset `padding`, whatever the padding | the default padding 0 with any buffer of two or more bytes: the last two bytes are lost | copy `byteLength - padding` bytes | medium, not executed | Serializer.DefaultPaddingLosesTail | Serializer.StrippedRoundTrip |
| src/server/utilities.ts:73-78 | `stop` runs its branch only when `!m_timer`, so a pending timer is never cancelled | `run` at any time, then `stop`: the timer stays armed | `if (this.m_timer !== undefined)`, as in src/public/utilities.ts:71 | high, not executed | ServerUtilities.StopAfterRun | Utilities.StopAfterRun |
| src/server/utilities.ts:61-62 | the delta is assigned only when the previous time is falsy, that is on the first run, where it becomes NaN | two runs at non-zero times: the delta stays NaN | `if (lastTime !== undefined)`, as in src/public/utilities.ts:57 | high, not executed | ServerUtilities.RunTwice | Utilities.RunTwice |
| src/public/utilities.ts:33-40 | `wrap` reduces into [0, max − min) and subtracts one period only above max, so a range that does not contain 0 is not respected | `wrap(5, 2, 4)` gives 1 | the representative of the value in the range [min, max] | medium, not executed | Utilities.WrapLeavesRange | Utilities.WrapInto |
| src/public/socket.ts:118-120 | `on.open` and `on.close` hand the binder a copy of the socket's listener, so `do` (src/public/socket.ts:62-64) rebinds only the copy, and the socket's own listener stays undefined | bind `on.open`, then open: the call of the undefined listener throws | a shared wrapper that `do` writes through, as src/server/socket.ts:100-113 does | high, not executed | ClientSocket.OpenBindingIsLost | ServerSocket.OpenBindingReachesConnect |
