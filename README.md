# Dropdown prop resolution

A model of the prop-resolution layer of the ant-design `Dropdown` component
(`components/dropdown/dropdown.tsx`). On each render the component works out
what to hand to the positioning primitive it wraps:

- the **placement**: a default that depends on text direction when none is given;
  for a deprecated centre-aligned keyword, the part before `Center`, plus a warning;
  otherwise the caller's keyword;
- the **transition name**: the caller's, or `<root>-slide-down` / `<root>-slide-up`
  depending on whether the caller's raw placement mentions `top`;
- the **trigger actions** (none while disabled) and **point alignment** (on exactly
  when the context menu is among the actions);
- the **overlay**: the content (after invoking a producer), text wrapped in a `span`,
  checked to be a single element, and, for a composite element, cloned into a vertical
  menu with `selectable` defaulting to false and a default expand arrow; a warning when
  the caller's `mode` is not vertical;
- the **class names** of the trigger child (`<prefix>-trigger`, `<prefix>-rtl` under
  right-to-left, the child's own) and of the overlay (the caller's, then `<prefix>-rtl`),
  with the dropdown's `disabled` copied onto the child.

Files:

- `wrappers.dfy`: `Option` (a prop that may be `undefined`) and `Result` (a render that
  may fail).
- `js_search.dfy`: the JavaScript searches the component uses: `String.prototype.indexOf`
  and `includes`, and `Array.prototype.indexOf`, each proved to find the first occurrence.
- `dropdown.dfy`: the props, the placement set, the element model and every decision
  above, with the lemmas that state what they promise.

React elements are `Node` values: an intrinsic or composite kind and the props this
component reads or injects. Developer warnings are returned as values instead of being
logged. The configuration context (the class-prefix generator and the direction) is
passed in as parameters: the component's resolved prefix, the root prefix and the
direction.

Edge cases as the code decides them:

- the mode warning treats an empty `mode` like an absent one (the code tests `!mode`),
  so it fires only for a non-empty mode other than `vertical`;
- `React.Children.only` accepts one element and nothing else; text, arrays (even of one
  element) and an absent child are all contract violations, returned as `Err`;
- `disabled` is copied onto the child as given, so an unset `disabled` clears the child's
  own `disabled` prop (unless the child's component declares a default `disabled`); the
  trigger list is emptied only when `disabled` is true.

## Model

| member | source | states |
|---|---|---|
| `JsSearch.IndexOfFrom` | components/dropdown/dropdown.tsx:144 | the result is -1 or a position at or after the start where the search string occurs, and no earlier position from the start holds it |
| `JsSearch.IndexOf` | components/dropdown/dropdown.tsx:83 | `indexOf` is -1 exactly when the search string occurs nowhere; otherwise it is its first occurrence |
| `JsSearch.IncludesIffOccurs` | components/dropdown/dropdown.tsx:143 | `includes` holds exactly when the search string occurs somewhere |
| `JsSearch.IndexOfElement` | components/dropdown/dropdown.tsx:186 | array `indexOf` is -1 exactly when the element is absent; otherwise it is an index holding it with no earlier copy |
| `Dropdown.ParsePlacement` | components/dropdown/dropdown.tsx:12-23 | a string recognised as a placement is that placement's keyword |
| `Dropdown.ParseKeyword` | components/dropdown/dropdown.tsx:12-21 | every keyword is recognised as its own placement, so the keywords are distinct |
| `Dropdown.GetPlacement` | components/dropdown/dropdown.tsx:137-141 | with no placement the result is `bottomRight` under right-to-left and `bottomLeft` otherwise, with no warning |
| `Dropdown.CenterKeywords` | components/dropdown/dropdown.tsx:12-21 | exactly `topCenter` and `bottomCenter` contain `Center`, and what precedes it is the keyword of the matching edge placement |
| `Dropdown.CenterPlacementResolves` | components/dropdown/dropdown.tsx:143-151 | a centre-aligned keyword resolves to `top`/`bottom` with exactly one deprecation warning naming the keyword and its replacement |
| `Dropdown.OtherPlacementUnchanged` | components/dropdown/dropdown.tsx:143-153 | any keyword without `Center` is returned unchanged, with no warning |
| `Dropdown.ResolvedPlacementWellFormed` | components/dropdown/dropdown.tsx:137-154 | for every input the result is a member of the placement set, is not a centre alias, does not contain `Center`, and a warning is raised exactly for a centre-aligned input |
| `Dropdown.GetPlacementIdempotent` | components/dropdown/dropdown.tsx:137-154 | resolving an already-resolved placement, under any direction, gives it back with no warning |
| `Dropdown.DeprecationNamesReplacement` | components/dropdown/dropdown.tsx:144-149 | the deprecation message contains the replacement keyword |
| `Dropdown.GetTransitionName` | components/dropdown/dropdown.tsx:77-87 | an explicit transition name is returned as is; otherwise the result is `<root>-slide-down` exactly when the raw placement contains `top`, and `<root>-slide-up` exactly when it does not |
| `Dropdown.TopKeywords` | components/dropdown/dropdown.tsx:83 | a keyword contains `top` exactly when its placement is above the trigger |
| `Dropdown.TransitionNameBySide` | components/dropdown/dropdown.tsx:79-86 | without an explicit name the overlay slides down exactly for a placement above the trigger, and an unset placement slides up |
| `Dropdown.TransitionMatchesResolvedPlacement` | components/dropdown/dropdown.tsx:77-87 | without an explicit name the overlay slides down exactly when the resolved placement (default or de-aliased) contains `top` |
| `Dropdown.TriggerActions` | components/dropdown/dropdown.tsx:184 | a disabled dropdown has an empty action list; otherwise the configured list passes through unchanged, `undefined` included |
| `Dropdown.AlignPoint` | components/dropdown/dropdown.tsx:185-188 | point alignment is true exactly when the action list is defined and contains the context menu, and is never false (it stays unset) |
| `Dropdown.AlignPointFromConfiguration` | components/dropdown/dropdown.tsx:184-188 | point alignment is on exactly when the dropdown is not disabled and its configured actions include the context menu |
| `Dropdown.RenderOverlay` | components/dropdown/dropdown.tsx:89-135 | non-element content is a contract violation; text becomes one intrinsic `span` holding it; an intrinsic element comes back unchanged; a composite one comes back with the same type and other props, vertical mode, its own `selectable` or false, and its expand icon when valid or the default arrow; the mode warning fires exactly for a set, non-empty mode other than `vertical` |
| `Dropdown.RenderOverlayIdempotent` | components/dropdown/dropdown.tsx:114-132 | normalising an already-normalised overlay returns it unchanged, and a composite one raises no mode warning the second time |
| `Dropdown.ModeOnlyWarns` | components/dropdown/dropdown.tsx:107-132 | the caller's mode never changes the returned node beyond what it is given: a composite overlay comes out the same whatever its mode, an intrinsic one exactly as given |
| `Dropdown.TriggerClassList` | components/dropdown/dropdown.tsx:169-176 | the trigger classes are `<prefix>-trigger`, then `<prefix>-rtl` under right-to-left, then the child's own non-empty className, in that order and nothing else |
| `Dropdown.OverlayClassList` | components/dropdown/dropdown.tsx:180-182 | the overlay classes are the caller's non-empty overlayClassName followed by `<prefix>-rtl` under right-to-left, and nothing else |
| `Dropdown.RtlClassIffRightToLeft` | components/dropdown/dropdown.tsx:169-182 | `<prefix>-rtl` is among the trigger classes and among the overlay classes exactly under right-to-left (when the caller did not supply that class) |
| `Dropdown.BindTrigger` | components/dropdown/dropdown.tsx:169-178 | the child keeps its type and props except that its className is the joined trigger class list and its `disabled` is the dropdown's |
| `Dropdown.RenderDropdown` | components/dropdown/dropdown.tsx:166-210 | a render fails exactly when the child is not a single element; otherwise the primitive receives the resolved placement, the chosen transition name, the composed overlay class name, the component's prefix, the effective trigger actions (none while disabled), point alignment on exactly when enabled with the context menu configured and unset (never false) otherwise, the overlay thunk yielding the normalised overlay and the bound trigger child; the placement is a non-centre member of the placement set, and the warnings are exactly the placement's deprecation warning, raised only for a centre-aligned placement |

## Left out

- Rendering: JSX, `React.cloneElement` internals and the positioning primitive
  `RcDropdown` itself (dropdown.tsx:195-210); the model produces the props handed to it.
- The spread `{...props}` of every other prop onto the primitive (line 197); only the
  props this component computes are modelled.
- `getPlacements` and the arrow options (lines 190-192, 199): the placement table lives in
  a module that is not part of this model, and `!!arrow` is a bare coercion.
- The `getPopupContainer` fallback (line 202): a choice between two opaque functions.
- `ConfigContext` and `getPrefixCls` (lines 71-75, 78, 166): their results (the component's
  prefix, the root prefix, the direction) are parameters.
- The `classNames` library: class lists are sequences, joined with single spaces by
  `JoinClasses`; its handling of arrays, objects and numbers is not modelled.
- `devWarning` as a logging channel: warnings are returned values; whether a warning is
  printed only once or only outside production builds is not modelled.
- `mouseEnterDelay` / `mouseLeaveDelay` defaults (lines 215-218): floating-point timing
  that only the primitive uses.
- `Dropdown.Button` (line 213): `DropdownButton` is not part of this model.
- Dropdown.GetPlacement: placements are the typed keyword set; a string outside it (or an
  empty string, which the code's `!placement` would treat as unset) is not an input.
- Dropdown.RenderOverlay: `selectable` is modelled as set or `undefined`; a `null`
  `selectable`, which the destructuring default would leave as `null`, is not modelled.
