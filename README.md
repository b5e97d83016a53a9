# jsonobject in Dafny

A model of the Go package `jsonobject`. The package wraps a decoded JSON document in a dynamically typed `JsonValue`. A `JsonValue` is a `kind` tag (Invalid, Nil, Number, String, Boolean, Array, Object) plus an untyped payload. The package lets a caller:

- navigate without ever failing (`Field`, `Index` with Python-style negative indices, `Size`, `IsValid`, `IsNil`);
- extract typed scalars (`Int`, `Bool`, `Str` with their `Default*` and `Must*` forms);
- mutate the document in place (`SetField`, `SetIndex`, `Append`) after coercing caller values (`transformValue`);
- iterate (`Each`, `EachPair`).

Files:

- `jsonobject.dfy`, module `JsonObject`:
  - `Native` is Go's `any`. A `[]any` is an `array<Native>`. A `map[string]any` is a `MapBox` object. A stored `*JsonValue` is `NodeVal`.
  - `Tagged` is the contents of a `JsonValue` (kind plus payload). The read-only Go methods are functions on it.
  - `JsonValue` is a class with mutable `kind` and `val` fields. It holds the methods that allocate wrappers or change state.
  - `Transform` is `transformValue`. `Converted` is its specification.
- `properties.dfy`, module `JsonObjectProperties`: lemmas about classification, index resolution, navigation chains, extraction, and what a coerced value reads back as (`Mirrors`).
- `scenarios.dfy`, module `JsonObjectScenarios`: client methods for the aliasing rules and the scenarios of `jsonobject_test.go`.

Aliasing, as the code behaves:

- `Field` and `Index` return fresh wrappers. Those wrappers share the document's arrays and maps.
- `SetField` and `SetIndex` write that shared storage, so the write is visible from the root.
- `Append` gives only the receiver a longer slice, so a parent container does not see the appended element (the model always allocates a fresh array; see Left out).

The model follows the code, including these behaviours:

- A JSON `null` (Go `nil`) is classified as `Invalid`, not `Nil` (jsonobject.go:62-63).
- `Field` tests the payload's type, not the kind (jsonobject.go:149).
- The `Nil` kind only arises from coercing `nil`. Coercion stores a `*JsonValue` wrapper, and navigating to that slot again yields `Invalid` (jsonobject.go:69-71, `StoredNilReadsInvalid`).

## Model

| member | source | states |
|---|---|---|
| `JsonObject.Classify` | jsonobject.go:28-65 | newValue is total. The result is well formed and never Nil. It is valid exactly for numeric, string, bool, `[]any` and `map[string]any` payloads, and then keeps the payload itself. Everything else, nil included, gives the Invalid node. |
| `JsonObject.NewValue` | jsonobject.go:28-65 | Allocates a fresh, well-formed wrapper whose contents are the classification of the payload. |
| `JsonObjectProperties.ClassifyPicksTheAgreeingKind` | jsonobject.go:28-65 | For each data kind, the classified kind equals it exactly when the payload variant agrees with it. A Go nil classifies as Invalid. |
| `JsonObject.Transform` | jsonobject.go:68-145 | Result and fresh footprint satisfy `Converted`: nil becomes a fresh Nil wrapper, a wrapped value yields its own payload with no copy, and scalars and opaque values are unchanged. A sequence becomes a fresh array of the same length with elements converted in order. A map becomes a fresh map with the same keys and each value converted. Nothing that existed before is written. Each element's or key's conversion has its own footprint, disjoint from its siblings' and not holding the parent container. |
| `JsonObject.TransformSeq` | jsonobject.go:136-141 | A fresh array of the sequence's length, element k being the conversion of element k, each with its own footprint, pairwise disjoint and excluding the array. |
| `JsonObject.TransformMap` | jsonobject.go:130-135 | A fresh map with exactly the argument's keys, each holding the conversion of its value, each with its own footprint, pairwise disjoint and excluding the map. |
| `JsonObjectProperties.ConvertedSiblingsAreSeparate` | jsonobject.go:130-141 | Two different elements of a coerced sequence never share the slice, map or wrapper made for them, and neither footprint holds the parent array. |
| `JsonObjectProperties.StoredValueReadsBack` | jsonobject.go:68-145 | Navigating a coerced value gives the caller's value back at every depth: scalars through their accessors, arrays with the same size and element by element, maps with the same keys and field by field. Nil and opaque values read back as Invalid; a wrapped value reads back as its own classification. |
| `JsonObjectProperties.StoredNilReadsInvalid` | jsonobject.go:69-71 | A slot holding the coerced nil reads back as Invalid, not Nil. |
| `JsonObject.Tagged.Field` | jsonobject.go:148-156 | Never fails and never gives Nil. The result is valid exactly when the payload is a map holding the key with a recognised value, and then it is that stored value with no copy. Otherwise it is the Invalid node. |
| `JsonObject.JsonValue.Field` | jsonobject.go:148-156 | Returns a fresh, well-formed wrapper whose contents are `Tagged.Field` of the receiver. |
| `JsonObjectProperties.InvalidAbsorbs` | jsonobject.go:148-191 | Any chain of Field/Index steps from the Invalid node stays Invalid. |
| `JsonObjectProperties.MissingFieldChain` | jsonobject.go:148-156 | A chain that starts at a missing field ends Invalid, has Size 0 and yields every DefaultInt fallback. |
| `JsonObject.JsonValue.SetField` | jsonobject.go:159-164 | Returns the receiver. On a map payload the shared map gains or overwrites exactly the key `name`, and every other key is unchanged. The stored value is the coerced argument. On any other payload nothing is written. |
| `JsonObject.RealIndex` | jsonobject.go:167-182 | Gives -1 for a non-array. For an array of length n, it gives a slot in [0, n) exactly when -n <= i < n; the slot is i or n+i. Otherwise it gives -1. |
| `JsonObjectProperties.RealIndexIsModular` | jsonobject.go:167-182 | The resolved slot is congruent to the index modulo the length (Python indexing). |
| `JsonObject.Tagged.Index` | jsonobject.go:185-191 | Never fails and never gives Nil. The result is valid exactly when the index resolves to a slot with a recognised value, and then it is that element. Otherwise it is the Invalid node. |
| `JsonObject.JsonValue.Index` | jsonobject.go:185-191 | Returns a fresh, well-formed wrapper whose contents are `Tagged.Index` of the receiver. |
| `JsonObjectProperties.NegativeIndexing` | jsonobject.go:167-191 | For -n <= i < 0, Index(i) equals Index(n+i). So Index(-1) equals Index(n-1) and Index(-n) equals Index(0). Index(-(n+1)) and every index >= n give Invalid. |
| `JsonObject.JsonValue.SetIndex` | jsonobject.go:194-199 | Returns the receiver. When the index resolves, the array keeps its length, only the resolved slot changes, and it holds the coerced argument. Otherwise the array is unchanged. |
| `JsonObject.JsonValue.Append` | jsonobject.go:202-212 | Returns the receiver and keeps its kind and validity. On kind Array with an array payload, the receiver gets a fresh array one longer: the old elements come first, the coerced argument last, and the old array is untouched. The new array is none of the objects made for the argument. Otherwise the payload is unchanged. |
| `JsonObject.JsonValue.Each` | jsonobject.go:215-222 | On an Array there is one visit per element, in order, each with its classified element and its index 0..n-1. On any other kind there are no visits. |
| `JsonObject.JsonValue.EachPair` | jsonobject.go:225-232 | On an Object every key is visited exactly once (distinct keys, all covered, as many visits as entries), with its classified value. On any other kind there are no visits. |
| `JsonObject.Tagged.Size` | jsonobject.go:235-244 | Array length for Array, number of keys for Object, and 0 for every other kind. On an Array, an index resolves exactly when -Size <= i < Size. |
| `JsonObject.Tagged.IsValid` | jsonobject.go:247-249 | A well-formed node is valid exactly when it is Nil or holds a recognised payload. |
| `JsonObject.Tagged.IsNil` | jsonobject.go:252-254 | A well-formed Nil node carries the nil payload and is valid. |
| `JsonObject.Tagged.Int` | jsonobject.go:312-346 | Succeeds only on kind Number. It always succeeds on an integer payload, with that integer. On a float it succeeds only with an integer exactly equal to the float. Failures carry "not an integer". |
| `JsonObjectProperties.IntOfFloatIsExact` | jsonobject.go:317-320 | For a float payload, Int gives k exactly when the float equals k. |
| `JsonObjectProperties.IntRoundingRule` | jsonobject.go:317-320 | 3.0 gives 3, and 3.5 is an error. |
| `JsonObjectProperties.DecodedWholeNumberIsAnInt` | jsonobject_test.go:24 | A decoded float 37 under "age" extracts as the integer 37. |
| `JsonObject.Tagged.DefaultInt` | jsonobject.go:349-354 | Returns the Int value when Int succeeds, and the fallback when it fails. |
| `JsonObject.Tagged.MustInt` | jsonobject.go:357-363 | Where Int succeeds, equals DefaultInt for every fallback. |
| `JsonObject.Tagged.Bool` | jsonobject.go:366-374 | Succeeds exactly on kind Boolean with a bool payload, giving that bool. Otherwise fails with "not a boolean". |
| `JsonObject.Tagged.DefaultBool` | jsonobject.go:377-382 | Returns the Bool value when Bool succeeds, and the fallback when it fails. |
| `JsonObject.Tagged.MustBool` | jsonobject.go:385-391 | Where Bool succeeds, equals DefaultBool for every fallback. |
| `JsonObject.Tagged.Str` | jsonobject.go:394-402 | Succeeds exactly on kind String with a string payload, giving that string. Otherwise fails with "not a string". |
| `JsonObject.Tagged.DefaultStr` | jsonobject.go:405-410 | Returns the Str value when Str succeeds, and the fallback when it fails. |
| `JsonObject.Tagged.MustStr` | jsonobject.go:413-419 | Where Str succeeds, equals DefaultStr for every fallback. |
| `JsonObjectProperties.DefaultsUseFallbackIffError` | jsonobject.go:348-410 | Each Default form depends on its fallback exactly when its accessor fails. |
| `JsonObjectProperties.AccessorsAreExclusive` | jsonobject.go:312-402 | At most one of Int, Bool and Str succeeds on any node. |
| `JsonObject.NewObject` | jsonobject.go:459-461 | Returns a fresh, well-formed Object over a fresh empty map, with Size 0. |
| `JsonObject.NewArray` | jsonobject.go:464-466 | Returns a fresh, well-formed Array over a fresh empty array, with Size 0. |
| `JsonObjectScenarios.SetFieldReadsBack` | jsonobject.go:159-164 | After SetField on a map node, Field of the same name mirrors the caller's value. |
| `JsonObjectScenarios.SetIndexReadsBack` | jsonobject.go:194-199 | After SetIndex on a resolvable index, Index of the same index mirrors the caller's value. |
| `JsonObjectScenarios.SetFieldThroughNavigatedChild` | jsonobject_test.go:40-46 | SetField through `root.Field(list).Index(i)` is seen when the same path is navigated again from the root. |
| `JsonObjectScenarios.WriteIntoOneElementSparesItsSiblings` | jsonobject.go:136-141 | After SetField of a sequence, SetIndex through the wrapper of one element that became a slice leaves every other element reading back as the caller's value. |
| `JsonObjectScenarios.WriteIntoOneElementIsSeenFromTheRoot` | jsonobject.go:194-199 | The same SetIndex through the navigated element is seen when navigating again from the root. |
| `JsonObjectScenarios.AppendThroughNavigatedChild` | jsonobject.go:202-212 | Appending through a navigated child grows the child wrapper by one. The array the document holds keeps its size. |
| `JsonObjectScenarios.WriteAfterAppendSparesTheAppended` | jsonobject.go:202-212 | After Append(x) on a non-empty array, SetIndex(0, y) leaves Index(-1) reading back as x, and Index(0) reads back as y. |
| `JsonObjectScenarios.AppendGrowth` | jsonobject.go:202-212 | `NewArray().Append(1).Append(2)` has Size 2, holds 1 then 2, and Index(-1) is 2. |
| `JsonObjectScenarios.EachAfterAppends` | jsonobject.go:215-222 | Each on that array visits 1 at index 0, then 2 at index 1. |
| `JsonObjectScenarios.ObjectGrowth` | jsonobject.go:159-164 | `NewObject().SetField("a", "x")` has Size 1, reads "x" back under "a", and "b" is Invalid. |

## Left out

- Parse, Marshal, MarshalIndent, MarshalToString and MarshalIndentToString (jsonobject.go:421-456) hand JSON text to Go's `encoding/json`. That codec is not part of this model, so the parse → mutate → serialize round trip is stated only up to re-navigation without re-parsing.
- String (jsonobject.go:257-259) is `fmt.Sprint` formatting and is not modelled.
- Float, DefaultFloat and MustFloat (jsonobject.go:262-309) are floating-point conversions and are not modelled.
- JsonObject.Tagged.Int: does not model machine widths. The ten predeclared integer types (int, int8 to int64, uint, uint8 to uint64) are an unbounded `int`, and float32 and float64 are a `real`. Every other type, `uintptr` and defined integer, float, string and bool types such as `time.Duration` included, matches no case of newValue, transformValue or Int: it is `AOpaque`/`OpaqueVal` and reads back Invalid. The `uint64`-to-`int` wrap-around, `int(float)` on out-of-range values, and NaN and infinities are not modelled. Only the rule that a float must have no fractional part is kept.
- JsonObject.Tagged.MustInt: the panic is modelled as a precondition that Int succeeds, and likewise for MustBool and MustStr.
- JsonObject.Transform: reflection is abstracted. Any slice or array shape is `ASeq` and any map shape is `AMap` with string keys. Stringification of non-string map keys (`k.String()`) is not modelled. The explicit `[]string`, `[]int`, `map[string]string` and `map[string]int` cases give the same result as the generic branch and are folded into it.
- JsonObject.Transform: caller values are modelled as immutable, finite values (`Arg`). A cyclic caller value, on which the Go recursion never ends, cannot be expressed. A nil `*JsonValue` pointer, which makes the Go code panic, cannot be expressed either.
- JsonObject.Transform: a wrapped `*JsonValue` argument is represented by the payload it holds at the call (`AWrapped`). That payload is the only thing the coercion reads from it.
- JsonObject.JsonValue.Append: Go's `append` may write into spare capacity of the old backing array. The model always allocates a fresh array. Aliasing through shared spare capacity is therefore not modelled.
- A `[]any` is modelled as an array whose length is the slice length. Slice capacity is not modelled.
- JsonObject.JsonValue.Each: the visitor is modelled as the recorded sequence of its calls, each with the contents of the fresh wrapper it receives. Side effects of the visitor, such as mutation during iteration, are not modelled. The same holds for EachPair, whose visiting order the model leaves open, as Go map order is unspecified.
- Size, Each and EachPair require the kind/payload agreement (`WellFormed`). Without it, the Go type assertion would panic. Every constructor and method of the package keeps that agreement.
- The package has no locking; concurrent use is not modelled.
