# Priority publish/subscribe registry

A model of the jQuery publish/subscribe plugin with priorities (`pubsub.js`).
The plugin keeps one registry, the hash `cache`, that maps a topic name to a
priority table. A priority table is a JavaScript array. Its integer indices are
the priority tiers, and each tier is an array of callbacks in registration
order. The plugin has three operations:

- `subscribe` picks the tier. In the three-argument form a zero or `undefined`
  priority means the default tier, `d.subscribe.default_priority` (10). The
  two-argument shorthand `subscribe(topic, fn)` stores under the callback itself
  as key instead (see "## Findings"). It then creates the topic and the tier if
  they are missing, appends the callback, and returns the handle
  `[topic, callback, priority]`.
- `publish` runs in one of two modes. With a numeric second argument it calls
  every callback of that one tier. Otherwise it treats the second argument as
  the argument list and walks the whole array, index 0 upward.
- `unsubscribe` scans the handle's tier with jQuery's `each`. It splices out
  each matching entry it reaches, and the entry shifted into a spliced slot is
  skipped.

How the model is laid out:

- `Tables` models a topic's JavaScript array: indexed slots, where `None` is a
  hole, plus non-index properties.
- `Splice` holds what unsubscribe's scan leaves of a tier, with its lemmas.
- `FanOut` holds the invocation list that publish produces, with the ordering
  lemmas.
- `PubSub` holds the registry state as functions and the class `Registry`. The
  class has the field `cache` (a `map` the methods reassign) and the field
  `defaultPriority`, and its methods have loops.
- `Client` shows what a caller can derive from the contracts.

Callbacks are an opaque type `F` with equality. JavaScript's `==` on function
values is reference identity. Published arguments have an opaque type `V`. The
model does not call any callback. `Publish` is a read-only method that returns
the ordered list of `Invocation(callback, args)` it would make.

What the code does, where its own comments or a first reading might suggest otherwise:

- The comment at pubsub.js:94-96 says unsubscribe disconnects the subscribed
  function. The code scans with jQuery's `each`, which fixes the length at
  entry and reads the live array by index. It splices out each match it
  reaches, and the entry shifted into a spliced slot is skipped. So `[f, g, f]`
  becomes `[g]`, while a run of `k` adjacent copies of `f` keeps `k / 2` of
  them wherever the run stands (`SpliceMatches`, `SpliceMatchesSpaced`,
  `SpliceMatchesRunIn`).
- The comment at pubsub.js:24-26 says fan-out runs every handler of the topic.
  The code walks the topic's array by index, so tiers are visited in ascending
  priority (`FlattenOrder`, `PublishFanOutOrder`). Only keys that are array
  indices are reached: a tier stored under the callback key of the
  two-argument shorthand, or under a number of 2^32 - 1 or more, is never
  reached (`NonIndexNotFannedOut`).
- In fan-out mode the code replaces the argument list with the second argument.
  So `publish(topic, undefined, args)` calls with `[]`, and any third argument
  is ignored (`Dispatch`).

## Model

| member | source | states |
|---|---|---|
| Tables.Empty | pubsub.js:80 | a fresh array holds no tier under any key |
| Tables.Get | pubsub.js:82 | reading `table[k]` finds a tier only in an existing slot for an array index, or in the properties for any other key |
| Tables.Put | pubsub.js:80-85 | assigning `table[k]` makes `k` read back the new tier and every other key read as before; an array index (below 2^32 - 1) at or past the end grows the array to `k + 1` slots, and leaves the properties alone; any other key, including a larger number, sets a property and leaves the slots and the length alone |
| Tables.PutSame | pubsub.js:107 | writing a tier back unchanged leaves the table equal to what it was |
| Tables.PutPut | pubsub.js:82-85 | creating an empty tier and then replacing it is the same as assigning the final tier directly, array length included |
| Splice.SpliceMatches | pubsub.js:105-109 | the scan never lengthens a tier |
| Splice.SplicedStep | pubsub.js:105-109 | one iteration of the scan at index `idx`, splicing when the entry there is `==` the callback, keeps the final outcome: entries before the index are final, and the shifted entry is passed over |
| Splice.SpliceMatchesDropsOnly | pubsub.js:105-109 | the scan deletes only entries `==` the callback and keeps every surviving entry in its relative order |
| Splice.SpliceMatchesAbsent | pubsub.js:105-109 | a tier that does not hold the callback is left unchanged |
| Splice.SpliceMatchesRemoves | pubsub.js:105-109 | a tier that holds the callback loses at least one entry |
| Splice.SpliceMatchesSpaced | pubsub.js:105-109 | when no two adjacent entries are both the callback, every copy of it is removed (`[f, g, f]` becomes `[g]`) |
| Splice.SpliceMatchesRun | pubsub.js:105-109 | a tier of `k` adjacent copies keeps `k / 2` of them |
| Splice.SpliceMatchesConcat | pubsub.js:105-109 | when the first part does not end with the callback, the scan of two parts placed together is the scan of each part on its own |
| Splice.SpliceMatchesRunBefore | pubsub.js:105-109 | a run of `k` copies followed by a part that does not start with the callback keeps `k / 2` copies, and the rest is scanned on its own |
| Splice.SpliceMatchesRunIn | pubsub.js:105-109 | a maximal run of `k` adjacent copies anywhere in a tier keeps `k / 2` copies, and the parts before and after it are scanned independently |
| Splice.SpliceMatchesAppended | pubsub.js:85-86 | scanning a tier for the callback just appended to it, when it held no other copy, gives back the tier as it was before the push |
| FanOut.Invoke | pubsub.js:42-44 | iterating one tier makes exactly one call per stored callback, in stored order, each with the given argument list |
| FanOut.FlattenMembers | pubsub.js:47-51 | the walk over the array meets every callback of every slot, and meets no callback that is not in some slot |
| FanOut.FlattenAppend | pubsub.js:47-51 | walking two arrays one after the other meets their callbacks one after the other |
| FanOut.FlattenSplit | pubsub.js:47-51 | the callbacks of tier `p` are met as one contiguous block, after all lower indices and before all higher ones |
| FanOut.FlattenOrder | pubsub.js:47-51 | for `p < q`, all of tier `p` is met before all of tier `q`, each in registration order |
| FanOut.FlattenNothing | pubsub.js:47-51 | an array of holes and empty tiers yields no call |
| FanOut.FlattenEmptyTier | pubsub.js:47-51 | putting an empty tier in a hole, or growing the array by holes and an empty tier, changes nothing that fan-out meets |
| PubSub.TierOf | pubsub.js:105 | a tier is found only under a topic the registry holds |
| PubSub.Subscribed | pubsub.js:79-85 | the topic set gains `topic`; tier `cache[topic][key]` becomes its old contents (empty if missing) followed by the callback; every other topic and tier is unchanged |
| PubSub.Unsubscribed | pubsub.js:103-109 | the topic set is unchanged; a missing topic or tier means no change at all; otherwise only the handle's tier changes, to the outcome of the scan |
| PubSub.Dispatch | pubsub.js:38-53 | an unknown topic gives no call; a numeric priority gives exactly the callbacks of that tier, each once, in order, each with the third argument or `[]`; otherwise every array index is walked in ascending order with the second argument (or `[]`) as args |
| PubSub.PublishAfterSubscribe | pubsub.js:41-44 | after subscribing at tier `p`, a scoped publish at `p` makes the earlier calls followed by one call of the new callback |
| PubSub.PublishIsolated | pubsub.js:41-44 | a scoped publish is unaffected by a subscription to any other topic or tier |
| PubSub.NonIndexNotFannedOut | pubsub.js:45-51 | a subscription under a key that is not an array index (the shorthand's callback key, or a number of 2^32 - 1 or more) changes no fan-out publish |
| PubSub.SubscribedFannedOut | pubsub.js:45-51 | a subscription under an array index is called by every fan-out publish to its topic, with the fan-out argument list |
| PubSub.DefaultTierWalk | pubsub.js:79-85 | in a fresh registry a subscription at tier 10 creates the topic, and walking its array, ten holes and then the tier, meets exactly that callback |
| PubSub.ShorthandMissesPublish | pubsub.js:73 | the documented `subscribe(topic, fn)` followed by `publish(topic, args)` calls nothing, while `fn` subscribed at the default tier 10 is called once with `args` |
| PubSub.PublishFanOutOrder | pubsub.js:45-51 | a fan-out publish calls lower tiers before higher ones, each tier's callbacks in registration order, all with the fan-out argument list |
| PubSub.SubscribeUnsubscribeRoundTrip | pubsub.js:85-86 | subscribing a callback its tier does not yet hold and unsubscribing the returned handle restores every tier's contents; if the tier existed before, the whole registry is restored |
| PubSub.RoundTripUnobservable | pubsub.js:38-53 | after that round trip no publish, in either mode and to any topic, gives a different list of calls |
| PubSub.Registry.constructor | pubsub.js:16 | the registry starts empty with default priority 10 |
| PubSub.Registry.AddToTier | pubsub.js:79-86 | the new registry is `Subscribed(old, topic, key, callback)`, and the handle is `(topic, callback, key)` |
| PubSub.Registry.Subscribe | pubsub.js:76-86 | a zero priority is replaced by the default tier and any other is kept; the handle carries the priority actually used; the registry is updated as `Subscribed` says; the default priority is unchanged |
| PubSub.Registry.SubscribeShorthand | pubsub.js:77-78 | the two-argument form stores the callback under the callback itself as key and returns that key in the handle |
| PubSub.Registry.Publish | pubsub.js:18-54 | returns exactly the calls `Dispatch` describes, and cannot change the registry |
| PubSub.Registry.EachTier | pubsub.js:47-51 | the nested loop yields the calls of every slot, in index order |
| PubSub.Registry.EachApply | pubsub.js:42-44 | the loop over one tier yields one call per callback, in stored order |
| PubSub.Registry.Unsubscribe | pubsub.js:92-110 | the new registry is `Unsubscribed(old, handle)` |
| PubSub.Registry.EachSplice | pubsub.js:105-109 | the index loop, bounded by the length at entry and splicing the live sequence, leaves exactly `SpliceMatches(tier, callback)` |

## Findings

| source | as written | input that shows it | evidently intended | confidence | as-written member | corrected member |
|---|---|---|---|---|---|---|
| pubsub.js:77-78 | the two-argument `subscribe(topic, fn)` leaves `fn` in the priority position, so the callback is stored under the function as a non-index property key that fan-out never visits | `subscribe("/some/topic", fn)` and then `publish("/some/topic", ["a","b","c"])`, the examples at pubsub.js:73 and :35, call nothing | the comment at pubsub.js:61-63 says a missing priority means the default tier, where fan-out calls `fn` with the arguments | high (not executed) | PubSub.ShorthandMissesPublish | PubSub.SubscribedFannedOut |

The model keeps both forms. `Registry.SubscribeShorthand` is the call as
written. `Registry.Subscribe` with priority 0 is the intended behaviour: it
stores at the default tier, and `SubscribedFannedOut` proves that every
fan-out publish then reaches the callback.

## Left out

- Calling the callbacks is not modelled. The source runs foreign code there, with whatever side effects it has, including re-entrant calls into the registry. `Publish` returns the calls instead.
- JavaScript's `isNaN` coercion of publish's second argument is not modelled. `isNaN([])` and `isNaN([5])` are false, so the source treats `publish(t, [])` as a lookup of key `""` and `publish(t, [5])` as tier 5. The model treats every argument array as fan-out (`PublishArg.Args`).
- Topic names that are properties of `Object.prototype` are not modelled. The source's `cache` is an object literal, so `cache["__proto__"]`, `cache["constructor"]` or `cache["toString"]` is already truthy before any subscription. A subscription under such a name writes into the shared prototype, or into a function, instead of creating a topic. Later topics can then find inherited tiers, and jQuery's `each` walks a function's properties with for-in. The model's `Cache` is a plain map from strings, in which every topic name starts out absent.
- Priorities that are not natural numbers (negative, fractional, string) are not modelled. They become property names with JavaScript property semantics. The exceptions are the function key of the two-argument shorthand and numbers of 2^32 - 1 or more, which the model stores as properties.
- Tables.Put: keys from 0 to 2^32 - 2 are array indices, and a larger number is stored as a property, as JavaScript does. Numbers above 2^53 cannot be represented as JavaScript numbers, so the source rounds them to a nearby double and may merge priorities that the model, which keeps every `nat` exact, keeps apart.
- Entries and Flatten: a hole in a topic's array is taken to make no call. Every topic whose lowest tier is above 0 has holes, which is the usual case since the default tier is 10. At a hole, jQuery's `each` still runs the outer function with `this` undefined, which sloppy mode turns into the global object. The inner `each` then iterates the window. Under jQuery 1.4 with no frames (`window.length` is 0) that makes no call, which is what the model assumes. With a frame present, or under later jQuery versions that walk the window's properties, the source calls `.apply` on a non-function and throws a TypeError.
- SubscribeShorthand: the key is the callback itself. JavaScript keys the property by the function's string form, so two distinct functions with identical source text would share a tier there, but not in this model.
- Subscribe: the priority is a `nat`, and 0 stands for every falsy value (`0`, `undefined`, `null`). A call with neither callback nor priority, which pushes `undefined`, is not modelled.
- The default priority is a `nat` field. The source allows any value in `d.subscribe.default_priority`.
- jQuery's `each` is an assumption, not code to verify: an index loop with the length fixed at entry that reads the live array. Its stop-on-`false` rule is left out, because none of the iteration callbacks in the source returns a value.
- Handles that do not have the shape `[topic, callback, priority]` are not modelled. In JavaScript they look up whatever their elements name.
- Registry.Unsubscribe and Registry.EachSplice: the scan works on the tier as a value and stores it back once. The source splices the live array in place. Nothing observes the array in between, so the result is the same, but aliasing of that array object is not modelled.
- The implicit global `default_priority` that subscribe leaks (no `var`) is not modelled. The IIFE and jQuery plugin wrapper are not modelled either. Both are plumbing.
