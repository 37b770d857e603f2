# Paranoia XP actor sheet: a verified model

This project models the character-sheet controller `ParanoiaXPActorSheet` of the Paranoia XP
system for Foundry VTT (`module/actor/actor-sheet.js`). The parts of the sheet with logic of their own are modelled:

- **the item classifier** (`_prepareCharacterItems`). It defaults every item's image to
  `DEFAULT_TOKEN` and sorts the owned items into `gear_personal`, `gear_assigned`,
  `gear_treasonous`, `gear_unassigned` and `skill`.
- **the derived name** (`_onNameChange`). It seeds `basename` from the current name when it is
  missing and composes `basename-label-sector-clone`.
- **the security styling** (`_setSecurityUI`). It removes every mapped security class from the
  window element and every mapped `_sb` class from the scrollbar element, then applies the
  current clearance's class.
- **new-item data** (`_onItemCreate`). The new item is named `New <Type>` and its data is the
  dataset without its `type` key.

Layout:

- `wrappers.dfy` holds `Option`. `None` stands for `undefined` or `null`.
- `host_config.dfy` holds the injected `CONFIG.PARANOIA_XP` tables. It also holds JavaScript's
  reading of a missing key (`undefined`) and that value's string conversion (`"undefined"`).
- `items.dfy` holds the item class and the pure specification of each bucket (`InBucket`, a filter).
  It also holds the partition, exclusivity, stability and length laws.
- `naming.dfy` holds the composed name, JavaScript's integer-to-string conversion for the clone number,
  and a read-back law.
- `security.dfy` holds the class sets the styling leaves behind, with their laws and idempotence.
- `item_creation.dfy` holds the item data built by `_onItemCreate`.
- `actor_sheet.dfy` holds the host-side objects: the actor store and its log of issued calls,
  `classList`s, the view-model and the sheet data. It also holds the sheet class. The sheet's
  methods are the imperative operations, each proved against the functions above.

Host collaborators are injected rather than modelled: `game.i18n.format` is the sheet's `format`
function, `String.capitalize` its `capitalize` function, and `DEFAULT_TOKEN` its `defaultToken`.
`actor.update` and `actor.createOwnedItem` append to the actor's log of calls. An update is applied
to the stored actor at once, in the order issued.

Two behaviours of the code are worth stating plainly:

- The window loses only the plain mapped classes and the scrollbar only the `_sb` ones.
- Any item type other than `item`, `weapon` or `skill` is dropped silently.

## Model

| member | source | states |
|---|---|---|
| Items.GearBucketByDataType | module/actor/actor-sheet.js:59-72 | gear goes to personal, assigned or treasonous exactly when `data.type` is that word, and to unassigned exactly when it is none of them |
| Items.BucketOfByType | module/actor/actor-sheet.js:58-89 | an item is classified exactly when its type is item, weapon or skill; it is a skill exactly when its type is `skill`; gear goes to the bucket its `data.type` picks |
| Items.InBucket | module/actor/actor-sheet.js:54-91 | a bucket is never longer than the input; what it holds is stated by the bucket lemmas below |
| Items.BucketMultiplicity | module/actor/actor-sheet.js:54-91 | each bucket holds every occurrence of the items classified into it and no occurrence of any other item |
| Items.BucketMembership | module/actor/actor-sheet.js:54-91 | an item is in a bucket if and only if it is an input item classified into that bucket |
| Items.GearInExactlyOneBucket | module/actor/actor-sheet.js:58-72 | an item or weapon is in the gear bucket its `data.type` names and in no other bucket |
| Items.SkillOnlyInSkills | module/actor/actor-sheet.js:78-89 | a skill is in `skill` and in no gear bucket |
| Items.OtherTypeDropped | module/actor/actor-sheet.js:58-91 | an item of any other type is in no bucket |
| Items.BucketSnoc | module/actor/actor-sheet.js:54-91 | classifying one more item appends it to its own bucket and leaves every other bucket as it was |
| Items.SnocMultiplicity | module/actor/actor-sheet.js:54-91 | one more item adds one occurrence to its own bucket and none to any other |
| Items.BucketConcat | module/actor/actor-sheet.js:54-91 | classifying a concatenation gives the concatenation of the buckets of the parts |
| Items.BucketSplitAt | module/actor/actor-sheet.js:54-91 | splitting the input around one item splits each bucket around it the same way |
| Items.BucketKeepsOrder | module/actor/actor-sheet.js:54-91 | of two input items in the same bucket, the earlier one comes first in the bucket (stable partition) |
| Items.BucketsCoverClassified | module/actor/actor-sheet.js:45-99 | the five buckets' lengths add up to the number of items of type item, weapon or skill |
| Items.DisplayImg | module/actor/actor-sheet.js:56 | the displayed image is always defined, and it is truthy whenever `DEFAULT_TOKEN` is non-empty |
| Items.DisplayImgTruthy | module/actor/actor-sheet.js:56 | defaulting changes only a falsy image, and an image is truthy exactly when defaulting keeps it and it is still truthy |
| Items.DisplayImgIdempotent | module/actor/actor-sheet.js:56 | defaulting an image twice gives the same image as defaulting it once |
| Items.OwnedItem.DefaultImage | module/actor/actor-sheet.js:56 | the item's image becomes its displayed image |
| Naming.NatDigits | module/actor/actor-sheet.js:209 | a clone number renders as a non-empty string of decimal digits with no leading zero |
| Naming.DigitsRoundTrip | module/actor/actor-sheet.js:209 | reading the rendered digits back gives the clone number |
| Naming.DecimalString | module/actor/actor-sheet.js:209 | an integer renders as a non-empty string of its digits with no leading zero, after a '-' when it is negative, and reads back to its value |
| Naming.BaseNameStable | module/actor/actor-sheet.js:201-205 | once the root is stored as `basename` it stays the root, whatever the current name becomes |
| Naming.ComposedName | module/actor/actor-sheet.js:206-209 | the name starts with `base-`, ends with `-` and the clone digits, and its length is the length of its parts plus three separators |
| Naming.CloneNumberReadBack | module/actor/actor-sheet.js:206-209 | a non-negative clone number is the last `-`-separated field of the composed name and reads back to the number; a negative one leaves its magnitude in that field, after a doubled `-` |
| Naming.ComposedNameExample | module/actor/actor-sheet.js:201-209 | with no `basename`, name "Bob", label "RED", sector "A1" and clone 3, the name is "Bob-RED-A1-3" |
| Security.AppliedClass | module/actor/actor-sheet.js:221-231 | the applied class is always one of the mapped classes or the text "undefined" |
| Security.AppliedClassMapped | module/actor/actor-sheet.js:221-231 | a configured clearance applies one of the mapped classes and the scrollbar its `_sb` variant; an unconfigured one applies the text "undefined" |
| Security.WindowAfter | module/actor/actor-sheet.js:225-230 | the window afterwards has the applied class and no other mapped class; every other class keeps its membership |
| Security.ScrollbarAfter | module/actor/actor-sheet.js:225-231 | the scrollbar afterwards has the applied `_sb` class and no other mapped `_sb` class; every other class keeps its membership |
| Security.WindowAfterIdempotent | module/actor/actor-sheet.js:220-234 | styling the window twice with one clearance equals styling it once |
| Security.ScrollbarAfterIdempotent | module/actor/actor-sheet.js:220-234 | styling the scrollbar twice with one clearance equals styling it once |
| Security.WindowAfterForgetsMapped | module/actor/actor-sheet.js:225-230 | the window's classes afterwards do not depend on which mapped classes it had before |
| ItemCreation.NewItemData | module/actor/actor-sheet.js:153-169 | with a dataset `type`, the item is named "New " + capitalize(type), has that type, and its data is the dataset minus `type`, every other key unchanged; without one, no item |
| ItemCreation.NewItemDataRestoresDataset | module/actor/actor-sheet.js:163-169 | putting the item's type back into its data gives back the dataset |
| ActorSheet.Actor.Update | module/actor/actor-sheet.js:203 | an update is logged and changes exactly the field it names |
| ActorSheet.Actor.CreateOwnedItem | module/actor/actor-sheet.js:172 | a creation request is logged and changes no actor field |
| ActorSheet.ClassList.Add | module/actor/actor-sheet.js:230-231 | `classList.add` inserts one token |
| ActorSheet.ClassList.Remove | module/actor/actor-sheet.js:227-228 | `classList.remove` deletes one token |
| ActorSheet.Allocate | module/actor/actor-sheet.js:58-89 | one loop step pushes the item onto exactly the container its classification selects and leaves the others as they were |
| ActorSheet.HoldsBucketsSnoc | module/actor/actor-sheet.js:54-91 | one loop step keeps the five containers equal to the five buckets of the items seen so far |
| ActorSheet.ClassifyItems | module/actor/actor-sheet.js:44-91 | the loop leaves the five containers equal to the five buckets of the items and every item's image defaulted, even when an item occurs twice |
| ActorSheet.ParanoiaXPActorSheet.GetData | module/actor/actor-sheet.js:26-29 | items are prepared for a character actor; for any other actor nothing changes |
| ActorSheet.ParanoiaXPActorSheet.PrepareCharacterItems | module/actor/actor-sheet.js:41-101 | afterwards each view-model field is its bucket of the items, whatever it held before, and each item's image is its defaulted original |
| ActorSheet.ParanoiaXPActorSheet.PrepareCharacterItemsTwice | module/actor/actor-sheet.js:41-101 | classifying twice leaves the same buckets and images as classifying once |
| ActorSheet.ParanoiaXPActorSheet.OnItemCreate | module/actor/actor-sheet.js:153-173 | the result is the new item's data as requested (standing for the host's reply), and exactly one creation request for it is issued, none when the dataset has no type |
| ActorSheet.ParanoiaXPActorSheet.OnNameChange | module/actor/actor-sheet.js:198-214 | a `basename` update with the current name is issued exactly when `basename` is missing, and before the name update; the persisted name is base-label-sector-clone; the classes are restyled |
| ActorSheet.ParanoiaXPActorSheet.OnNameChangeTwice | module/actor/actor-sheet.js:198-214 | a second recomputation keeps the name and issues only a name update, never re-deriving `basename` from the composed name |
| ActorSheet.ParanoiaXPActorSheet.SetSecurityUI | module/actor/actor-sheet.js:220-234 | the window and scrollbar classes become the styled sets; the clearance's mapped class is returned, or None (standing for `undefined`) when it has no entry, in which case the window gets the text "undefined" and the scrollbar "undefined_sb" |

## Left out

- `defaultOptions` and the parts of `getData` that call the base class and attach configuration (lines 8-32). These are host configuration. Only the `character` guard is modelled.
- `activateListeners` (lines 107-145). It is jQuery event binding, item-sheet rendering, the `slideUp` animation and drag-and-drop registration.
- `_onRoll` (lines 180-193). It is dice parsing and chat messaging through the host's `Roll` and `ChatMessage`.
- `event.preventDefault()` and reading the dataset off `event.currentTarget`. The dataset is passed in directly.
- The internals of `game.i18n.format`, `String.capitalize` and `duplicate`. The first two are injected functions. `duplicate` of a flat string map is a copy.
- The asynchrony of `actor.update` and `createOwnedItem`. An issued call is logged and applied immediately, in issue order. Failed host calls are not modelled.
- Element-tree traversal (`this.element[0].children[0]` and `[1]`). The two class lists are given, assumed to be distinct elements.
- ActorSheet.ParanoiaXPActorSheet.OnNameChange: `data.clone.value` is modelled as an integer. A fractional or non-numeric clone value, and JavaScript's rendering of it, is not modelled.
- An item's `data.type` is modelled as an optional string. A non-string `data.type` behaves like any unknown string, which is how the strict `switch` treats it.
- ActorSheet.ClassList.Add: accepts any string. The DOM's `classList.add` throws a `SyntaxError` for an empty token and an `InvalidCharacterError` for a token containing whitespace; those exceptions, and the aborted restyling they cause, are not modelled. Configured class names are taken to be valid tokens.
- ActorSheet.ClassList.Remove: accepts any string, for the same reason. The DOM's `classList.remove` throws on an empty token or one containing whitespace.
- HostConfig.Lookup: reads the configuration's own keys only. A clearance such as `constructor` or `toString`, which a JavaScript object inherits from its prototype, is treated as missing rather than reading the inherited member (lines 206 and 222).
- Naming.DecimalString: renders every integer in plain decimal digits. JavaScript numbers hold integers exactly only up to 2^53, and `String(n)` writes magnitudes of 10^21 and more in exponent form; clone numbers in those ranges are not modelled.
- ActorSheet.ParanoiaXPActorSheet.OnItemCreate: returns the item data it requested. The source returns the host's `createOwnedItem` result, which is host output and is not modelled.
- ActorSheet.ParanoiaXPActorSheet.OnNameChange: returns nothing. The source returns the result of the final `actor.update` call (line 212), which is host output and is not modelled.
