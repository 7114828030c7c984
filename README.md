# Workflow visualiser: connector geometry of StepProvider

This project models the core of the workflow visualiser's `StepProvider`
component. The component draws a chain of workflow steps, each optionally
linked to a next step by `nextId`, and joins linked steps with straight
connector lines in a vertical or a horizontal layout.

It has two parts, both modelled here:

- **The measurement pass** (the layout effect). It measures the rectangle of
  every step element, in step order, and stores the list as the state cell
  `coordinates`. It then measures the step container (the root) and stores
  that as `rootCoordinates`. A missing step element throws before anything is
  stored. A missing root throws after the step list has already been replaced,
  so the pass is not all-or-nothing. The pass runs on mount and again whenever
  the orientation changes.
- **The connector query** (`getLineStyles`). For a step id it finds the step
  and its measured rectangle. It throws when the id names no step or the step
  has no `nextId`. It returns `undefined` when the source, target or root
  rectangle is missing. Otherwise it returns the line's box
  `{width, height, top, left}`:
  - vertical: `8` wide, as tall as the gap from the source's bottom edge to the
    target's top edge, placed at the source's bottom (relative to the
    container) and at half the source's width;
  - horizontal: the same with the axes swapped.

Files and modules:

| file | module | what |
|---|---|---|
| wrappers.dfy | `Wrappers` | `Option`, `Result`, `Outcome` |
| types.dfy | `Types` | `Rect` (`StepCoordinate`), `Workflow`, `Orientation`, coordinate `Entry`, `LineStyle` |
| lookup.dfy | `Lookup` | first-match lookups by id (`Array.prototype.find`) |
| geometry.dfy | `Geometry` | the connector box and its properties |
| query.dfy | `Query` | `getLineStyles` as a pure function, with its lemmas |
| provider.dfy | `Provider` | the measurement pass, the `StepProvider` class and its lemmas |

The document lookups (`document.querySelector(...)?.getBoundingClientRect()`)
become parameters of the measurement pass. `stepRects: string -> Option<Rect>`
gives the rectangle of the element carrying a step id. `rootRect:
Option<Rect>` gives the rectangle of the container. A thrown `Error` becomes an
`Err`/`Fail` value. A missing step element names the step's id, as the thrown
message names its selector; a missing root and a query on a step without
`nextId` carry no further data, as their messages are fixed. Coordinates are `real`, so halving
is exact. The connector thickness `"8px"` is the number `8`.

Behaviour of the code that a reader might not expect:

- The gap is not clamped to zero. Overlapping steps give a negative
  length (`Geometry.OverlapGivesNegativeLength`).
- Querying an unknown or terminal step throws; it does not return
  `undefined` (`Query.ThrowsIffNoLink`).
- The measurement pass is not atomic. A missing root leaves the new step
  list beside the old root (`Provider.MissingRootReplacesOnlyStepList`).
- Nothing validates the chain. A `nextId` that names no step yields
  `undefined` after measurement (`Provider.DanglingLinkHasNoConnector`).
- The across-travel offset is step-relative (`width / 2` or `height / 2`).
  The along-travel offset is container-relative
  (`Geometry.CrossOffsetIsStepRelative`).

## Model

| member | source | states |
|---|---|---|
| Lookup.FirstIndex | src/StepProvider.tsx:74-80 | the index found is the first position holding the id; none exactly when the id does not occur |
| Lookup.FindCoordinate | src/StepProvider.tsx:74 | the rectangle returned is that of the first entry carrying the id; absent exactly when no entry carries it |
| Lookup.FindWorkflow | src/StepProvider.tsx:75 | the step returned is the first step carrying the id; absent exactly when no step carries it |
| Geometry.LineDistance | src/StepProvider.tsx:89-92 | no contract of its own; the signed gap between the facing edges, stated through `Geometry.ConnectorBox` and `Geometry.OverlapGivesNegativeLength` |
| Geometry.ConnectorBox | src/StepProvider.tsx:89-113 | vertical: width 8, the box starts on the source's bottom edge and ends on the target's top edge (in viewport terms, once the root's y is added back), left is half the source's width; horizontal: the same with the axes swapped |
| Geometry.HorizontalIsTransposedVertical | src/StepProvider.tsx:89-113 | the horizontal box equals the vertical box computed on transposed rectangles, transposed back |
| Geometry.OverlapGivesNegativeLength | src/StepProvider.tsx:89-92 | when the target's facing edge lies before the source's, the box's length is negative: the gap is not clamped |
| Geometry.CrossOffsetIsStepRelative | src/StepProvider.tsx:98-107 | the offset across the direction of travel depends only on the source's own width (vertical) or height (horizontal), not on the container or either position |
| Geometry.VerticalExample | src/StepProvider.tsx:89-111 | bottom 100, width 40, target top 160, root y 10 give width 8, height 60, top 90, left 20 |
| Geometry.HorizontalExample | src/StepProvider.tsx:89-111 | right 100, height 40, target left 160, root x 10 give width 60, height 8, top 20, left 90 |
| Query.LineStyles | src/StepProvider.tsx:72-118 | no contract of its own; its behaviour is stated by `Query.ThrowsIffNoLink`, `Query.UnmeasuredHasNoStyle`, `Query.MissingRectGivesNoStyle` and `Query.MeasuredLinkGivesBox` |
| Query.ThrowsIffNoLink | src/StepProvider.tsx:75-78 | the query throws exactly when no step links onward from that id (unknown id, or a first matching step without `nextId`) |
| Query.FollowsLink | src/StepProvider.tsx:75-80 | when the first step carrying the id links to `n`, the step the query finds has `nextId` `n` |
| Query.ErrorPrecedesMeasurement | src/StepProvider.tsx:74-87 | whether and what the query throws is the same for any coordinate list, root and orientation |
| Query.UnmeasuredHasNoStyle | src/StepProvider.tsx:82-87 | with an empty coordinate list and no root, a linked step yields `undefined`, not an error |
| Query.MissingRectGivesNoStyle | src/StepProvider.tsx:80-87 | a linked step yields `undefined` when its own rectangle, its target's rectangle or the root is missing |
| Query.MeasuredLinkGivesBox | src/StepProvider.tsx:72-115 | a linked step whose rectangle, target rectangle and root are measured yields the connector box between them |
| Provider.MeasureSteps | src/StepProvider.tsx:36-56 | succeeds exactly when every step has an element; then one entry per step, same ids in the same order, each holding that step's rectangle; otherwise the error names the first step without an element |
| Provider.MeasurementPass | src/StepProvider.tsx:35-70 | no contract of its own; its behaviour is stated by `Provider.SuccessfulPassStoresEveryStep`, `Provider.MissingStepLeavesStateUnchanged`, `Provider.MissingRootReplacesOnlyStepList` and `Provider.PassIsIdempotent` |
| Provider.SuccessfulPassStoresEveryStep | src/StepProvider.tsx:35-70 | a pass with every element present completes, stores one entry per step in step order with its rectangle, and stores the root |
| Provider.MissingStepLeavesStateUnchanged | src/StepProvider.tsx:36-58 | a missing step element makes the pass throw for a step no later than it, leaving both state cells unchanged |
| Provider.MissingRootReplacesOnlyStepList | src/StepProvider.tsx:58-69 | a missing root makes the pass throw after the step list has been replaced by one entry per step, in step order, each holding that step's measured rectangle; the root cell keeps its old value |
| Provider.SuccessfulPassForgetsOldState | src/StepProvider.tsx:58-69 | the outcome and state after a successful pass do not depend on the state before it |
| Provider.PassIsIdempotent | src/StepProvider.tsx:35-70 | repeating a pass over unchanged measurements gives the same outcome and state again |
| Provider.PassRecordsStep | src/StepProvider.tsx:36-58 | after a successful pass, every step's id is in the stored list and every entry carrying it holds the rectangle measured for that id |
| Provider.MeasuredChainHasConnectors | src/StepProvider.tsx:35-115 | after a successful pass, a step linked to a step of the chain has the connector box between the two measured rectangles and the root |
| Provider.DanglingLinkHasNoConnector | src/StepProvider.tsx:80-87 | after a successful pass, a step whose `nextId` names no step yields `undefined` |
| Provider.StepProvider.constructor | src/StepProvider.tsx:27-33 | a new provider has an empty coordinate list and no root rectangle |
| Provider.StepProvider.Remeasure | src/StepProvider.tsx:35-70 | the outcome and the two state cells are those of one measurement pass over the old cells; the orientation is unchanged |
| Provider.StepProvider.SetOrientation | src/StepProvider.tsx:70 | a changed orientation runs a measurement pass; the same orientation leaves the cells unchanged |
| Provider.StepProvider.GetLineStyles | src/StepProvider.tsx:72-118 | throws exactly when no step links onward from the id; before the root is measured it never yields a style |

## Left out

- Document access: `document.querySelector`, `getBoundingClientRect` and the selector strings are replaced by the `stepRects` and `rootRect` parameters. Selector syntax errors for ids with special characters are not modelled.
- React machinery: the context, `useStepContext` and its outside-provider check, `useState` scheduling, the Provider JSX.
- Provider.StepProvider.GetLineStyles: reads the current orientation and step list. The source memoises `getLineStyles` on `[coordinates]` only, so it can briefly use an older orientation or step list. That stale closure is not modelled.
- Changes to the `workflows` prop: the source re-measures only when the orientation changes, and `workflows` is a constant field here.
- `console.log` and the CSS unit string `"8px"`. The thickness is the number 8.
- Floating-point rounding: coordinates are exact reals. The source only subtracts and halves.
- src/App.tsx: presentation, sample data and the orientation toggle. It only calls `getLineStyles`.
