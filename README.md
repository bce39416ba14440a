# Istio product: the gateway/route aggregation

A Dafny model of the one piece of logic in the istio product configuration
of the cluster dashboard. That piece is `getAllGateways`, an exported
function meant to back a spoofed list view; the spoofed route type that
`init` registers still takes its instances from `getAllRoutes`
(config/product/istio.js:85). `getAllGateways` loads the configuration
document and its secret, then:

1. defaults the document's `gateway` to an empty mapping;
2. forces the root route's name to the fixed root name;
3. takes the root's child routes (or a fresh empty list);
4. lets the naming step name the children;
5. appends the root to that same list;
6. emits one `cluster/create` record `{id, spec, type, secret}` per route.

Any synchronous exception, up to and including the building of the records,
turns the result into an empty list. A null entry in the child list is one
such case: the push still happens, then reading `route.name` (line 27)
throws.

The membership predicate `ifHaveGroup` of the product
(`/^(.*\.)*istio\.io$/`) is modelled too.

Files:

- `gateways.dfy`, module `Gateways`, holds the aggregation. It is written
  imperatively, as the source is:
  - `Config` and `Route` are classes whose fields the operation assigns.
  - The child array is a `seq` field of the root, and the push reassigns it.
  - The naming step writes its names into the child objects in a loop.
  - The record construction is a pure function, `Emit`.
- `product.dfy`, module `Product`, holds `ifHaveGroup`. It is a pure
  predicate, proved equal to a structural reading of the regular expression.
- `scenario.dfy`, module `Scenario`, is a client. It calls the aggregation
  on a concrete document with one unnamed child, one named child and a root
  that already has a name, and on the same document with a null child entry.

External collaborators become parameters of `GetAllGateways`:

- **`loadConfig`.** Its outcome is the value `Load<S>`: `Loaded(config, secret)`
  or `LoadFailed`. `LoadFailed` covers a rejected promise, and also a
  resolved value with no document to destructure.
- **`setDefaultRouteNames`.** Its body is not part of this model. It becomes
  an opaque function from the child entries (null, or a route's current
  name) to either the names the present children carry afterwards or
  `Threw`.
- **`dispatch('cluster/create', …)`.** It becomes the record it is given.
- **`ROOT_NAME` and the spoofed route type tag.** Neither is defined in the
  file, so both are opaque string parameters.

## Model

| member | source | states |
|---|---|---|
| `Gateways.Config.DefaultGateway` | config/product/istio.js:15 | afterwards `gateway` is the old mapping when there was one and the empty mapping otherwise; no other field changes |
| `Gateways.SetDefaultRouteNames` | config/product/istio.js:19 | succeeds exactly when the naming step does not throw on the child entries. On success, each present child i carries the i-th name the step chose. On a throw, no name changes. No child's own child list changes |
| `Gateways.Emit` | config/product/istio.js:23-34 | exactly one record per route, in the same order: record i has route i's current name as id, route i itself as spec, the fixed type tag and the loader's secret |
| `Gateways.GetAllGateways` | config/product/istio.js:11-40 | a failed load, or a document without a root route, yields `[]`. A loaded document's gateway is defaulted even when it has no root route, since line 15 runs before line 16 throws. The root's name is the fixed root name whatever it was. If the naming step throws, the result is `[]`. Otherwise the root is pushed; if a child entry is null the result is then `[]`; else the result has one record per child plus one: children first, in their original order and with the names the step chose, then the root with the fixed root name. The push goes into the document's own child array when there was one, which then ends with the root itself. With no child array, the root's child list stays absent and the only record is the root's. Any non-empty result ends with the root's record |
| `Product.IfHaveGroup` | config/product/istio.js:46 | a group belongs exactly when `^(.*\.)*istio\.io$` matches it, with JavaScript's `.` matching everything except line terminators (both directions) |
| `Product.IsIstioGroupMatchesPattern` | config/product/istio.js:46 | the direct test (`istio.io`, or ending in `.istio.io`, with no line terminator) accepts exactly the strings the pattern matches (both directions) |
| `Product.ConcatOfSegments` | config/product/istio.js:46 | any number of `.*\.` repetitions spells either nothing or a line-terminator-free string that ends in a dot |
| `Product.AcceptsApex` | config/product/istio.js:46 | the pattern matches `istio.io` itself |
| `Product.AcceptsSubgroup` | config/product/istio.js:46 | the pattern matches `p + ".istio.io"` for every `p` without a line terminator |
| `Product.RejectsOtherSuffix` | config/product/istio.js:46 | the pattern matches no string that does not end in `istio.io` |
| `Product.RejectsUndottedPrefix` | config/product/istio.js:46 | the pattern does not match `p + [c] + "istio.io"` with `c` not a dot (`xistio.io`) |
| `Product.RejectsLineTerminator` | config/product/istio.js:46 | the pattern matches no string containing a line terminator |
| `Scenario.ExampleDocument` | config/product/istio.js:11-40 | for children `[{receiver}, {name: "custom"}]`, a root preset to another name and the secret `"sec1"`, the result is three records with ids `route-0`, `custom` and the root name, in that order, each with secret `"sec1"` |
| `Scenario.ExampleNullEntry` | config/product/istio.js:17-39 | with a null entry among the children the result is `[]`, after the root has been renamed and pushed into the child array |

Behaviours of the code that a quick reading of it might miss:

- Normalising the root route can fail. With no `config.route`, line 16 throws
  before the optional chaining on line 17 is reached, so the result is `[]`.
- Failed creation requests are not turned into `[]`. `Promise.all(mapped)` is
  returned without being awaited (line 36), so its rejection escapes the
  `catch` on lines 37-39. The model takes creation as always succeeding.
- The group predicate is not simply "equals `istio.io` or ends in
  `.istio.io`". JavaScript's `.` does not match `\n`, `\r`, U+2028 or U+2029,
  so a group containing one of them is rejected.
- Unique, non-empty names for the children are not something this file
  establishes. It only calls the naming step, whose body is not part of this
  model.

## Left out

- `init` (config/product/istio.js:42-157): declarative registrations handed to
  the host DSL (product, virtual type, spoofed schemas, type groupings,
  headers, the label lookup). None of it has behaviour of its own. Only the
  `ifHaveGroup` pattern it registers is modelled.
- The internals of `loadConfig`, `setDefaultRouteNames` and `dispatch`: none
  is defined in this file, and the first and last are I/O against the store.
  The naming step's scheme, name uniqueness and any effect on grandchildren
  are not modelled. The model lets it change only the children's names.
- Asynchrony: the two suspension points (the awaited load, and the promises
  of the creation requests), and the store's ordering of the resolved
  records. The model returns the records in submission order.
- Gateways.GetAllGateways: requires the loaded document to be a tree: the
  root is not one of its own children, and no child object occurs twice. A
  configuration whose nodes are shared (YAML aliases) is therefore not
  covered. Under that assumption, holding the child array as a field of the
  root is the same as the source's shared array.
- Gateways.SetDefaultRouteNames: requires distinct children, for the same
  reason, and it assumes that the naming step either throws before writing
  any name or returns one name per child.
- Values of the wrong kind are not modelled: a `route` that is not an object,
  a truthy `routes` that is not an array, a child entry that is neither null
  nor an object, or a falsy `gateway` other than an absent one. Null child
  entries are modelled.
- The creation requests submitted for the entries before a null entry: the
  map has already called `dispatch` for them when line 27 throws. Creation
  is modelled as a pure record, so those requests are not represented.
- The route fields other than `name` and `routes` (receiver, grouping keys,
  timers, matchers): the aggregation never reads or writes them.
- Module loading: the clash between the imported and the local
  `getAllGateways` (lines 4 and 11), and the identifiers the file uses
  without defining them.
