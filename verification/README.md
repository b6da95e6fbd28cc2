# PennyCam signaling relay, checkout pricing and treat limiter — a Dafny model

This project models three pieces of the PennyCam pet-monitoring web app.

1. **The WebRTC signaling relay.** It is an in-memory map from a connection code to a record. The record holds the latest offer, the latest answer, and one FIFO queue of pending ICE candidates per peer role. The model covers:
   - the store (`lib/signaling-store.ts`);
   - the three HTTP routes built on it (`/api/signaling/offer`, `/answer` and `/ice-candidate`);
   - traces of requests, which is where the delivery guarantees are stated.
2. **Checkout price selection** (`/api/create-checkout`). It validates a plan and billing period, looks up the price table, and checks the Stripe key after the input.
3. **The manual treat button** of the remote viewer (`dispenseTreat`). It enforces a cap of 8 treats, a 30-second cooldown and a log of at most 20 entries. The source calls the cap a daily limit, but nothing resets the count: it starts from zero only when the page loads.

Modules and files:

| file | module | models |
|---|---|---|
| `wrappers.dfy` | `Wrappers` | optional values |
| `http.dfy` | `Http` | status codes; JavaScript truthiness of a string parameter |
| `signaling_store.dfy` | `SignalingStore` | the store and its nine operations |
| `signaling_api.dfy` | `SignalingApi` | JSON responses as `(status, body)` |
| `offer_route.dfy` | `OfferRoute` | GET / POST / DELETE of `/api/signaling/offer` |
| `answer_route.dfy` | `AnswerRoute` | GET / POST of `/api/signaling/answer` |
| `ice_candidate_route.dfy` | `IceCandidateRoute` | GET (read, then drain) / POST (append) of `/api/signaling/ice-candidate` |
| `rendezvous.dfy` | `Rendezvous` | request traces; exactly-once and at-most-once candidate delivery |
| `create_checkout.dfy` | `CreateCheckout` | POST of `/api/create-checkout` |
| `treat_dispenser.dfy` | `TreatDispenser` | `dispenseTreat` and sequences of presses |

Modelling choices:
- **Store as a value.** The store is a `map<string, Connection>` value. Every operation returns the store it leaves behind. Every operation except `clear` materialises a fresh record for an unknown code first, reads included, as `getConnection` does. `clear` only deletes the record. `Lookup` is the record a read observes.
- **Query parameters** are `Option<string>`. The handlers' `!id` test fails for a parameter that is absent or empty (`Http.Present`).
- **Body fields** (`offer`, `answer`, `candidate`, `plan`, `billing`) are `Option` values. `None` stands for a field that is absent or holds any falsy JSON value.
- **Offers, answers and candidates** are records shaped like `RTCSessionDescriptionInit` and `RTCIceCandidateInit`. The relay stores and returns them verbatim and never looks inside.
- **`peerType` is a raw string.** Only `"base-station"` is tested for, so every other non-empty string acts as the remote viewer (`SignalingStore.RoleOf`). The TypeScript type annotation admits only two values, but the routes cast the query string without checking it. The model follows the code.
- **One request at a time.** Each handler runs to completion with no suspension between reading and clearing the candidate queue, so every handler is one atomic step. A trace is a fold of the handlers over the store (`Rendezvous.Run`).
- **Time** in the treat limiter is the wall clock in integer milliseconds, passed in as `now`.
- **The Stripe secret key and the random mock session id** are parameters of `CreateCheckout.Post`.

## Model

| member | source | states |
|---|---|---|
| SignalingStore.RoleOf | lib/signaling-store.ts:42-46 | exactly the string `"base-station"` selects the base station; every other string selects the remote viewer |
| SignalingStore.GetConnection | lib/signaling-store.ts:11-19 | an unknown code gets an empty record (no offer, no answer, both queues empty), which is stored; a known code's record is returned and the store is unchanged |
| SignalingStore.MaterialiseInvisible | lib/signaling-store.ts:11-19 | lazy creation changes no later read of any code |
| SignalingStore.LookupElsewhere | lib/signaling-store.ts:9 | an operation on one code leaves the record of every other code as it read before |
| SignalingStore.SetOffer | lib/signaling-store.ts:22-29 | the record holds the new offer, no answer and two empty queues; all other records are unchanged |
| SignalingStore.GetOffer | lib/signaling-store.ts:30-32 | returns the stored offer (absent for an unknown code); the store changes only by lazy creation |
| SignalingStore.SetAnswer | lib/signaling-store.ts:33-35 | the answer is overwritten even when no offer exists; the offer and both queues are unchanged |
| SignalingStore.GetAnswer | lib/signaling-store.ts:36-39 | returns the stored answer (absent for an unknown code); the store changes only by lazy creation |
| SignalingStore.AddIceCandidate | lib/signaling-store.ts:40-47 | the candidate goes to the end of the caller's own queue, with no de-duplication; the other queue, the offer and the answer are unchanged |
| SignalingStore.GetIceCandidates | lib/signaling-store.ts:48-52 | returns the other role's queue, never the caller's; the store changes only by lazy creation |
| SignalingStore.ClearCandidates | lib/signaling-store.ts:53-62 | empties the other role's queue; the caller's own queue, the offer and the answer are unchanged |
| SignalingStore.Clear | lib/signaling-store.ts:63-65 | removes the code from the store; the code then reads as an empty record; no other record changes |
| SignalingStore.ClearIdempotent | lib/signaling-store.ts:63-65 | clearing twice gives the same store as clearing once |
| SignalingStore.ClearReadsAsUnknown | lib/signaling-store.ts:63-65 | after `clear`, offer, answer and candidate reads behave as for a code never seen |
| SignalingStore.DrainEmptiesWhatWasRead | lib/signaling-store.ts:48-62 | `clearCandidates` for a role empties exactly the queue `getIceCandidates` returned for that role and keeps the caller's own queue |
| OfferRoute.Get | app/api/signaling/offer/route.ts:4-19 | missing or empty id gives 400 with the store untouched; otherwise 404 when no offer is stored, else 200 with the stored offer verbatim |
| OfferRoute.Post | app/api/signaling/offer/route.ts:21-33 | missing id or falsy offer gives 400 with the store unchanged; otherwise success, and the record is reset to this offer with no answer and empty queues |
| OfferRoute.Delete | app/api/signaling/offer/route.ts:35-46 | missing id gives 400; otherwise the record is deleted and the response is success whether or not it existed |
| OfferRoute.DeleteIdempotent | app/api/signaling/offer/route.ts:35-46 | a repeated DELETE gives the same response and changes nothing more |
| OfferRoute.DeleteThenGetNotFound | app/api/signaling/offer/route.ts:12-16 | after a DELETE, a GET of the offer is a 404 |
| AnswerRoute.Get | app/api/signaling/answer/route.ts:4-19 | missing id gives 400 with no store access; otherwise 404 when no answer is stored, else 200 with the stored answer |
| AnswerRoute.Post | app/api/signaling/answer/route.ts:21-33 | missing id or answer gives 400 with the store unchanged; otherwise success, the answer replaces any earlier one, and nothing else in the record changes |
| AnswerRoute.LastAnswerWins | app/api/signaling/answer/route.ts:30-32 | after two answer POSTs, a GET returns the second answer |
| IceCandidateRoute.Get | app/api/signaling/ice-candidate/route.ts:4-22 | missing id or peerType gives 400 with the store untouched; otherwise 200 with the other role's queue in insertion order, and that queue is left empty; an empty answer changes nothing beyond lazy creation |
| IceCandidateRoute.Post | app/api/signaling/ice-candidate/route.ts:24-37 | missing id, peerType or candidate gives 400 with the store unchanged; otherwise success, and the candidate is appended to the poster's own queue |
| IceCandidateRoute.RepeatedGetIsEmpty | app/api/signaling/ice-candidate/route.ts:17-19 | an immediately repeated GET by the same peer receives `[]` |
| IceCandidateRoute.BaseStationCandidateGoesToViewer | app/api/signaling/ice-candidate/route.ts:13-19 | a candidate posted as base station reaches the next remote-viewer GET, after what was already pending, and never a base-station GET |
| Rendezvous.OtherCodeUntouched | lib/signaling-store.ts:11-19 | a request for one code leaves the record of every other code as it read before |
| Rendezvous.StepConserves | app/api/signaling/ice-candidate/route.ts:13-19 | one request that is not a reset keeps a queue balanced: pending plus posted equals handed out plus still pending |
| Rendezvous.DeliveredExactlyOnce | app/api/signaling/ice-candidate/route.ts:13-19 | over any trace without a new offer or DELETE for the code, the initially pending candidates followed by those posted equal those delivered to the other role followed by those still pending: none lost, none duplicated, order kept |
| Rendezvous.StepAtMostOnce | lib/signaling-store.ts:22-29 | one request, including a reset, never hands out more of a queue than was pending or posted |
| Rendezvous.DeliveredAtMostOnce | lib/signaling-store.ts:53-65 | over any trace, resets included, the multiset delivered plus what is still pending is contained in what was pending or posted |
| Rendezvous.ReceivedFromOtherQueue | lib/signaling-store.ts:48-52 | over any trace, what the candidate GETs of one role receive is exactly what is handed out of the other role's queue |
| Rendezvous.ReceivedAtMostOnce | app/api/signaling/ice-candidate/route.ts:13-19 | over any trace, resets included, what a role's GETs receive is contained (as a multiset) in the other role's initial queue plus the other role's posts |
| Rendezvous.NeverDeliveredToPoster | app/api/signaling/ice-candidate/route.ts:13-19 | over any trace, a candidate never pending in or posted to the other role's queue (for instance one only the receiving role posted) never reaches the receiving role |
| Rendezvous.NewOfferResets | lib/signaling-store.ts:22-29 | an answer and a candidate followed by a new offer leave no answer, two empty queues, and a 404 on the next answer GET |
| Rendezvous.HappyPath | app/api/signaling/ice-candidate/route.ts:13-21 | offer, answer and one base-station candidate each arrive verbatim on a fresh store; the candidate arrives exactly once |
| Rendezvous.MissingParameterScenario | app/api/signaling/offer/route.ts:8-16 | an offer GET with no id or an empty id gives 400 and changes nothing; an offer GET on a never-seen code gives 404 |
| CreateCheckout.PriceFor | app/api/create-checkout/route.ts:24-38 | a price exists exactly for plans `pro` and `family` with billing `monthly` or `yearly` |
| CreateCheckout.PriceTable | app/api/create-checkout/route.ts:4-35 | the four price ids and amounts: pro/monthly 299, pro/yearly 2999, family/monthly 999, family/yearly 9999 cents |
| CreateCheckout.PriceIdsDistinct | app/api/create-checkout/route.ts:4-9 | distinct valid pairs are charged under distinct price ids |
| CreateCheckout.Post | app/api/create-checkout/route.ts:11-67 | missing plan or billing gives 400; an unknown pair gives 400; a valid pair without a secret key gives 500; 200 exactly when the input is valid and the key is set, and then the response echoes plan and billing with the table's amount |
| CreateCheckout.ValidationPrecedesKeyCheck | app/api/create-checkout/route.ts:16-45 | invalid input gets the same 400 whether or not the key is configured |
| TreatDispenser.KeepLast | app/remote-viewer/page.tsx:377 | `slice(-n)` keeps the last n elements, or all of them when there are fewer |
| TreatDispenser.WaitSeconds | app/remote-viewer/page.tsx:369 | the wait is the ceiling of the remaining milliseconds over 1000; for elapsed time in 0..29999 it lies in 1..30 |
| TreatDispenser.DispenseTreat | app/remote-viewer/page.tsx:358-406 | the limit of 8 is checked before the cooldown; a refusal leaves the state unchanged; a treat is given exactly when under the limit and 30 s have passed (or there was no treat); a treat adds one to the count, sets the last time to now, keeps the last 19 log entries and appends a `Manual Treat` entry at now, and reports `8 - count - 1 >= 0` remaining |
| TreatDispenser.PressesStayWithinLimit | app/remote-viewer/page.tsx:362-377 | from a count within the limit, no sequence of presses exceeds it; the count grows by exactly the treats given; the log stays within 20 entries |
| TreatDispenser.AtMostEightTreatsPerPageLoad | app/remote-viewer/page.tsx:20-21 | from the state at page load, at most eight presses of any sequence give a treat, however far apart in time; the count is never reset |
| TreatDispenser.CooldownBetweenTreats | app/remote-viewer/page.tsx:368-372 | a press less than 30 000 ms after a treat, or earlier than it, gives no treat and changes nothing |

## Left out

- HTTP and JSON plumbing: URL parsing, `NextResponse` and `await req.json()` are not modelled. Requests are already-parsed optional fields. The 500 that a malformed JSON body produces through the thrown exception is not modelled either.
- Concurrency: the store is one module-level map. Each handler runs synchronously on one JavaScript thread, so each is one atomic step. No interleaving inside a handler is modelled.
- Contents of offers, answers and candidates: the relay stores them verbatim. Their fields are carried but never constrained.
- The `console.log` calls in the DELETE and checkout handlers are output only.
- CreateCheckout.Post: reports the amount in integer cents, because the source's `amount / 100` is a floating-point dollar value. The random mock session id is a parameter rather than generated.
- CreateCheckout.Post: does not model the outer `catch` that turns an exception into a 500, because only JSON parsing can throw there.
- `lib/stripe.ts` and the Stripe webhook route are foreign SDK wrappers with no logic of their own.
- TreatDispenser.WaitSeconds: computes the ceiling on exact integers. JavaScript divides in floating point, which agrees for any elapsed time a clock can produce.
- TreatDispenser.DispenseTreat: models one press against the state it sees. React batching of `setTreatCount` and the closure over a stale `treatCount` are not modelled. The alert text, sound and animation are output only.
- `scheduleAutoTreat` is driven by a timer and reads a stale count from a closure. It is not part of this model.
- Motion simulation, audio, canvas, notifications, animations and random connection ids in the camera pages are browser APIs and randomness, so they are left out.
- The billing, integrations, feeder-setup, account, auth, home and test-Stripe pages and the header component are presentational state, so they are left out.
