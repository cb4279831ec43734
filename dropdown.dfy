/**
 * The prop-resolution layer of the `Dropdown` component: which placement, transition,
 * trigger actions and alignment mode are handed to the positioning primitive, how the
 * overlay content is normalised into a vertical menu, and which class names and flags
 * are merged into the trigger child and the overlay.
 *
 * React elements are values of `Node`; a prop that may be `undefined` is an `Option`;
 * a developer warning is returned as a value instead of being logged.
 */
module Dropdown {
  import opened Wrappers
  import opened JsSearch

  // ---------------------------------------------------------------------------
  // Props and context
  // ---------------------------------------------------------------------------

  /** The placement keywords a caller may pass. */
  datatype Placement =
    | TopLeft | TopCenter | TopRight
    | BottomLeft | BottomCenter | BottomRight
    | Top | Bottom

  /** The keyword of a placement, as it is written in props. */
  function Keyword(p: Placement): string {
    match p
    case TopLeft => "topLeft"
    case TopCenter => "topCenter"
    case TopRight => "topRight"
    case BottomLeft => "bottomLeft"
    case BottomCenter => "bottomCenter"
    case BottomRight => "bottomRight"
    case Top => "top"
    case Bottom => "bottom"
  }

  /** The placement whose keyword is `s`, if `s` is a member of the placement set. */
  function ParsePlacement(s: string): (r: Option<Placement>)
    ensures r.Some? ==> Keyword(r.value) == s
  {
    if s == "topLeft" then Some(TopLeft)
    else if s == "topCenter" then Some(TopCenter)
    else if s == "topRight" then Some(TopRight)
    else if s == "bottomLeft" then Some(BottomLeft)
    else if s == "bottomCenter" then Some(BottomCenter)
    else if s == "bottomRight" then Some(BottomRight)
    else if s == "top" then Some(Top)
    else if s == "bottom" then Some(Bottom)
    else None
  }

  /** Every keyword is recognised as its own placement, so keywords are distinct. */
  lemma ParseKeyword(p: Placement)
    ensures ParsePlacement(Keyword(p)) == Some(p)
  {
  }

  /** The deprecated aliases: centre-aligned variants of an edge placement. */
  predicate IsCenter(p: Placement) {
    p == TopCenter || p == BottomCenter
  }

  /** The edge placement a centre-aligned alias stands for. */
  function EdgeOf(p: Placement): Placement
    requires IsCenter(p)
  {
    if p == TopCenter then Top else Bottom
  }

  /** The placements above the trigger. */
  predicate IsTopSide(p: Placement) {
    p == TopLeft || p == TopCenter || p == TopRight || p == Top
  }

  /** Text direction from the configuration context; only `rtl` is acted on. */
  datatype Direction = LeftToRight | RightToLeft | Unspecified

  datatype TriggerAction = Click | Hover | ContextMenu

  /** A developer-facing warning: the component it concerns and its text. */
  datatype Warning = Warning(component: string, message: string)

  /** `devWarning(valid, component, message)`: a warning exactly when `valid` is false. */
  function DevWarning(valid: bool, component: string, message: string): Option<Warning> {
    if valid then None else Some(Warning(component, message))
  }

  // ---------------------------------------------------------------------------
  // Placement resolution
  // ---------------------------------------------------------------------------

  datatype ResolvedPlacement = ResolvedPlacement(placement: string, warning: Option<Warning>)

  function DeprecationMessage(placement: string, replacement: string): string {
    "You are using '" + placement + "' placement in Dropdown, which is deprecated. Try to use '"
      + replacement + "' instead."
  }

  /**
   * The placement handed to the positioning primitive: a direction-dependent default
   * when none is given, the prefix before `Center` (with a deprecation warning) for a
   * centre-aligned keyword, the keyword itself otherwise.
   */
  function GetPlacement(placement: Option<Placement>, direction: Direction): (r: ResolvedPlacement)
    ensures placement.None? ==>
      r.placement == (if direction == RightToLeft then "bottomRight" else "bottomLeft") && r.warning.None?
  {
    match placement
    case None =>
      ResolvedPlacement(if direction == RightToLeft then "bottomRight" else "bottomLeft", None)
    case Some(p) =>
      var s := Keyword(p);
      if Includes(s, "Center") then
        var newPlacement := s[..IndexOf(s, "Center")];
        ResolvedPlacement(
          newPlacement,
          DevWarning(!Includes(s, "Center"), "Dropdown", DeprecationMessage(s, newPlacement)))
      else
        ResolvedPlacement(s, None)
  }

  /** Exactly the two centre-aligned keywords contain `Center`; what precedes it is the edge keyword. */
  lemma CenterKeywords(p: Placement)
    ensures Includes(Keyword(p), "Center") <==> IsCenter(p)
    ensures IsCenter(p) ==> Keyword(p)[..IndexOf(Keyword(p), "Center")] == Keyword(EdgeOf(p))
  {
    match p
    case TopCenter =>
      FirstOccurrence(Keyword(p), "Center", 3);
    case BottomCenter =>
      FirstOccurrence(Keyword(p), "Center", 6);
    case _ =>
      NoOccurrence(Keyword(p), "Center", 0);
  }

  /** An occurrence at `k` is the first when no earlier position holds the first character of `sub`. */
  lemma FirstOccurrence(s: string, sub: string, k: nat)
    requires OccursAt(s, sub, k) && |sub| > 0
    requires sub[0] !in s[..k]
    ensures IndexOf(s, sub) == k
  {
  }

  /** `sub` does not occur where one of its characters never appears. */
  lemma NoOccurrence(s: string, sub: string, i: nat)
    requires i < |sub| && sub[i] !in s
    ensures IndexOf(s, sub) == -1
  {
  }

  /** A centre-aligned placement resolves to its edge placement with one warning naming it. */
  lemma CenterPlacementResolves(p: Placement, direction: Direction)
    requires IsCenter(p)
    ensures GetPlacement(Some(p), direction)
      == ResolvedPlacement(Keyword(EdgeOf(p)),
                           Some(Warning("Dropdown", DeprecationMessage(Keyword(p), Keyword(EdgeOf(p))))))
  {
    CenterKeywords(p);
  }

  /** Any other placement passes through unchanged and raises no warning. */
  lemma OtherPlacementUnchanged(p: Placement, direction: Direction)
    requires !IsCenter(p)
    ensures GetPlacement(Some(p), direction) == ResolvedPlacement(Keyword(p), None)
  {
    CenterKeywords(p);
  }

  /**
   * Whatever the input, the resolved placement is a member of the placement set, no longer
   * contains `Center`, and a warning is raised exactly for a centre-aligned keyword.
   */
  lemma ResolvedPlacementWellFormed(placement: Option<Placement>, direction: Direction)
    ensures ParsePlacement(GetPlacement(placement, direction).placement).Some?
    ensures !IsCenter(ParsePlacement(GetPlacement(placement, direction).placement).value)
    ensures !Includes(GetPlacement(placement, direction).placement, "Center")
    ensures GetPlacement(placement, direction).warning.Some? <==> placement.Some? && IsCenter(placement.value)
  {
    var r := GetPlacement(placement, direction);
    match placement
    case None =>
      CenterKeywords(if direction == RightToLeft then BottomRight else BottomLeft);
    case Some(p) =>
      CenterKeywords(p);
      if IsCenter(p) {
        CenterKeywords(EdgeOf(p));
        ParseKeyword(EdgeOf(p));
      } else {
        ParseKeyword(p);
      }
  }

  /** Resolving an already-resolved placement gives it back, silently. */
  lemma GetPlacementIdempotent(placement: Option<Placement>, direction: Direction, direction': Direction)
    ensures var r := GetPlacement(placement, direction);
      GetPlacement(ParsePlacement(r.placement), direction') == ResolvedPlacement(r.placement, None)
  {
    ResolvedPlacementWellFormed(placement, direction);
    var q := ParsePlacement(GetPlacement(placement, direction).placement).value;
    OtherPlacementUnchanged(q, direction');
  }

  /** The deprecation warning names the replacement keyword. */
  lemma DeprecationNamesReplacement(p: Placement, direction: Direction)
    requires IsCenter(p)
    ensures GetPlacement(Some(p), direction).warning.Some?
    ensures Includes(GetPlacement(Some(p), direction).warning.value.message, Keyword(EdgeOf(p)))
  {
    CenterPlacementResolves(p, direction);
    var head := "You are using '" + Keyword(p) + "' placement in Dropdown, which is deprecated. Try to use '";
    var msg := DeprecationMessage(Keyword(p), Keyword(EdgeOf(p)));
    var e := Keyword(EdgeOf(p));
    assert msg == head + e + "' instead.";
    assert msg[|head|..|head| + |e|] == e;
    assert OccursAt(msg, e, |head|);
    IncludesIffOccurs(msg, e);
  }

  // ---------------------------------------------------------------------------
  // Transition name
  // ---------------------------------------------------------------------------

  /** The placement as the caller wrote it, `''` when unset. */
  function RawPlacement(placement: Option<Placement>): string {
    if placement.Some? then Keyword(placement.value) else ""
  }

  /**
   * The animation name: an explicit `transitionName` wins; otherwise the overlay slides
   * down when the caller's own placement keyword mentions `top`, and up in every other case.
   */
  function GetTransitionName(rootPrefixCls: string, placement: Option<Placement>, transitionName: Option<string>): (r: string)
    ensures transitionName.Some? ==> r == transitionName.value
    ensures transitionName.None? ==>
      (r == rootPrefixCls + "-slide-down" <==> Includes(RawPlacement(placement), "top"))
    ensures transitionName.None? ==>
      (r == rootPrefixCls + "-slide-up" <==> !Includes(RawPlacement(placement), "top"))
  {
    if transitionName.Some? then transitionName.value
    else if IndexOf(RawPlacement(placement), "top") >= 0 then rootPrefixCls + "-slide-down"
    else rootPrefixCls + "-slide-up"
  }

  /** Exactly the keywords of the placements above the trigger mention `top`. */
  lemma TopKeywords(p: Placement)
    ensures Includes(Keyword(p), "top") <==> IsTopSide(p)
  {
    if IsTopSide(p) {
      FirstOccurrence(Keyword(p), "top", 0);
    } else {
      NoOccurrence(Keyword(p), "top", 2);
    }
  }

  /**
   * Without an explicit name, the overlay slides down exactly for a placement above the
   * trigger; an unset placement slides up, whatever the text direction.
   */
  lemma TransitionNameBySide(rootPrefixCls: string, placement: Option<Placement>)
    ensures GetTransitionName(rootPrefixCls, placement, None)
      == rootPrefixCls + (if placement.Some? && IsTopSide(placement.value) then "-slide-down" else "-slide-up")
  {
    if placement.Some? {
      TopKeywords(placement.value);
    } else {
      NoOccurrence("", "top", 0);
    }
  }

  /**
   * The animation agrees with the placement actually used: the overlay slides down
   * exactly when the resolved placement is above the trigger.
   */
  lemma TransitionMatchesResolvedPlacement(rootPrefixCls: string, placement: Option<Placement>, direction: Direction)
    ensures var resolved := GetPlacement(placement, direction).placement;
      GetTransitionName(rootPrefixCls, placement, None) == rootPrefixCls + "-slide-down"
      <==> Includes(resolved, "top")
  {
    TransitionNameBySide(rootPrefixCls, placement);
    ResolvedPlacementWellFormed(placement, direction);
    var q := ParsePlacement(GetPlacement(placement, direction).placement).value;
    TopKeywords(q);
    if placement.Some? && IsCenter(placement.value) {
      CenterPlacementResolves(placement.value, direction);
    } else if placement.Some? {
      OtherPlacementUnchanged(placement.value, direction);
    }
  }

  // ---------------------------------------------------------------------------
  // Trigger actions and point alignment
  // ---------------------------------------------------------------------------

  /** The trigger actions in effect: none while disabled, the configured ones otherwise. */
  function TriggerActions(disabled: Option<bool>, trigger: Option<seq<TriggerAction>>): (r: Option<seq<TriggerAction>>)
    ensures disabled == Some(true) ==> r == Some([])
    ensures disabled != Some(true) ==> r == trigger
  {
    if disabled == Some(true) then Some([]) else trigger
  }

  /**
   * Point alignment (`alignPoint`): set to true exactly when the actions in effect include
   * the context menu, and left unset (never false) otherwise.
   */
  function AlignPoint(actions: Option<seq<TriggerAction>>): (r: Option<bool>)
    ensures r == Some(true) <==> actions.Some? && ContextMenu in actions.value
    ensures r != Some(false)
  {
    if actions.Some? && IndexOfElement(actions.value, ContextMenu) != -1 then Some(true) else None
  }

  /**
   * Point alignment follows the configuration: it is on exactly when the dropdown is not
   * disabled and its configured actions include the context menu.
   */
  lemma AlignPointFromConfiguration(disabled: Option<bool>, trigger: Option<seq<TriggerAction>>)
    ensures AlignPoint(TriggerActions(disabled, trigger)) == Some(true)
      <==> disabled != Some(true) && trigger.Some? && ContextMenu in trigger.value
    ensures disabled == Some(true) ==> AlignPoint(TriggerActions(disabled, trigger)).None?
  {
  }

  // ---------------------------------------------------------------------------
  // Overlay normalisation
  // ---------------------------------------------------------------------------

  /** The type of an element: an intrinsic tag such as `span`, or a composite component. */
  datatype Kind = Intrinsic(tag: string) | Composite(name: string)

  /** The props of an element that this component reads or injects. */
  datatype Props = Props(
    className: Option<string>,
    disabled: Option<bool>,
    mode: Option<string>,
    selectable: Option<bool>,
    expandIcon: Option<Value>,
    children: seq<Value>)

  datatype Node = Node(kind: Kind, props: Props)

  /** A renderable value: text, a valid element, or anything else (numbers, arrays, nothing). */
  datatype Value = Text(text: string) | Element(node: Node) | NonElement

  /** The `overlay` prop: a content value, or a function producing one. */
  datatype Overlay = Static(content: Value) | Producer(render: () -> Value)

  /** `React.Children.only` was handed something other than a single element. */
  datatype RenderError = NotSingleElement

  datatype NormalizedOverlay = NormalizedOverlay(node: Node, modeWarning: Option<Warning>)

  const NoProps := Props(None, None, None, None, None, [])

  /** The overlay content, after invoking the producer when one is given. */
  function OverlayContent(overlay: Overlay): Value {
    match overlay
    case Static(v) => v
    case Producer(render) => render()
  }

  /** `React.Children.only`: the element itself, or a contract violation. */
  function ChildrenOnly(v: Value): Result<Node, RenderError> {
    if v.Element? then Ok(v.node) else Err(NotSingleElement)
  }

  /** Text is wrapped in a `span` before the single-root check. */
  function WrapText(v: Value): Value {
    if v.Text? then Element(Node(Intrinsic("span"), NoProps.(children := [v]))) else v
  }

  /** The mode warning: raised when `mode` is set (to a non-empty string) other than `vertical`. */
  function ModeWarning(props: Props): Option<Warning> {
    DevWarning(
      props.mode.None? || props.mode.value == "" || props.mode.value == "vertical",
      "Dropdown",
      "mode=\"" + props.mode.GetOr("undefined") + "\" is not supported for Dropdown's Menu.")
  }

  /** The default submenu arrow: a `span` holding a right-pointing icon. */
  function DefaultExpandIcon(prefixCls: string): Node {
    Node(Intrinsic("span"), NoProps.(
      className := Some(prefixCls + "-menu-submenu-arrow"),
      children := [Element(Node(Composite("RightOutlined"),
                                 NoProps.(className := Some(prefixCls + "-menu-submenu-arrow-icon"))))]))
  }

  /** The caller's expand icon when it is a valid element. */
  predicate HasValidExpandIcon(props: Props) {
    props.expandIcon.Some? && props.expandIcon.value.Element?
  }

  function ExpandIcon(props: Props, prefixCls: string): Node {
    if HasValidExpandIcon(props) then props.expandIcon.value.node else DefaultExpandIcon(prefixCls)
  }

  /**
   * An intrinsic element as is; a composite one cloned with `mode` forced to vertical,
   * `selectable` defaulting to false and the expand icon filled in.
   */
  function FixMode(node: Node, prefixCls: string): Node {
    if node.kind.Intrinsic? then node
    else
      node.(props := node.props.(
        mode := Some("vertical"),
        selectable := Some(node.props.selectable.GetOr(false)),
        expandIcon := Some(Element(ExpandIcon(node.props, prefixCls)))))
  }

  /**
   * `normalized` is the vertical-menu form of the composite element `original`: the same
   * type and the same other props, vertical mode, the caller's selectability or false,
   * and the caller's expand icon when valid, the default arrow otherwise.
   */
  predicate IsVerticalMenuOf(normalized: Node, original: Node, prefixCls: string) {
    && normalized.kind == original.kind
    && normalized.props.className == original.props.className
    && normalized.props.disabled == original.props.disabled
    && normalized.props.children == original.props.children
    && normalized.props.mode == Some("vertical")
    && normalized.props.selectable
         == (if original.props.selectable.Some? then original.props.selectable else Some(false))
    && normalized.props.expandIcon
         == Some(if HasValidExpandIcon(original.props) then original.props.expandIcon.value
                 else Element(DefaultExpandIcon(prefixCls)))
  }

  /**
   * What the positioning primitive renders as the overlay: the single root element of the
   * content (text wrapped in a `span`), normalised to a vertical menu when composite, with
   * the warning raised for an unsupported mode.
   */
  function RenderOverlay(overlay: Overlay, prefixCls: string): (r: Result<NormalizedOverlay, RenderError>)
    ensures r.Err? <==> OverlayContent(overlay).NonElement?
    ensures OverlayContent(overlay).Text? ==>
      r == Ok(NormalizedOverlay(Node(Intrinsic("span"), NoProps.(children := [OverlayContent(overlay)])), None))
    ensures OverlayContent(overlay).Element? ==>
      var original := OverlayContent(overlay).node;
      && r.Ok?
      && (original.kind.Intrinsic? ==> r.value.node == original)
      && (original.kind.Composite? ==> IsVerticalMenuOf(r.value.node, original, prefixCls))
      && (r.value.modeWarning.Some?
          <==> original.props.mode.Some? && original.props.mode.value !in {"", "vertical"})
  {
    match ChildrenOnly(WrapText(OverlayContent(overlay)))
    case Err(e) => Err(e)
    case Ok(root) => Ok(NormalizedOverlay(FixMode(root, prefixCls), ModeWarning(root.props)))
  }

  /**
   * Normalising is idempotent: the normalised overlay, handed back as the overlay,
   * comes back unchanged, and a composite one raises no mode warning the second time.
   */
  lemma RenderOverlayIdempotent(overlay: Overlay, prefixCls: string)
    requires RenderOverlay(overlay, prefixCls).Ok?
    ensures var once := RenderOverlay(overlay, prefixCls).value.node;
      && RenderOverlay(Static(Element(once)), prefixCls).Ok?
      && RenderOverlay(Static(Element(once)), prefixCls).value.node == once
      && (once.kind.Composite? ==> RenderOverlay(Static(Element(once)), prefixCls).value.modeWarning.None?)
  {
  }

  /**
   * The mode of the caller's overlay only decides the warning: a composite overlay
   * comes out the same whatever its mode, an intrinsic one exactly as given.
   */
  lemma ModeOnlyWarns(original: Node, mode: Option<string>, prefixCls: string)
    ensures var withMode := original.(props := original.props.(mode := mode));
      && RenderOverlay(Static(Element(withMode)), prefixCls).Ok?
      && (original.kind.Composite? ==>
            RenderOverlay(Static(Element(withMode)), prefixCls).value.node
            == RenderOverlay(Static(Element(original)), prefixCls).value.node)
      && (original.kind.Intrinsic? ==>
            RenderOverlay(Static(Element(withMode)), prefixCls).value.node == withMode)
  {
  }

  // ---------------------------------------------------------------------------
  // Class names and the trigger child
  // ---------------------------------------------------------------------------

  /** The entry `classNames` keeps for an optional string argument: a non-empty one. */
  function ClassEntry(c: Option<string>): seq<string> {
    if c.Some? && c.value != "" then [c.value] else []
  }

  /** `classNames` output: the kept entries separated by single spaces. */
  function JoinClasses(classes: seq<string>): string {
    if |classes| == 0 then ""
    else if |classes| == 1 then classes[0]
    else classes[0] + " " + JoinClasses(classes[1..])
  }

  /**
   * The classes of the trigger child: the trigger marker, then the mirrored-layout class
   * when the direction is right-to-left, then the child's own className.
   */
  function TriggerClassList(prefixCls: string, direction: Direction, childClassName: Option<string>): (r: seq<string>)
    ensures |r| == 1 + (if direction == RightToLeft then 1 else 0) + |ClassEntry(childClassName)|
    ensures r[0] == prefixCls + "-trigger"
    ensures direction == RightToLeft ==> r[1] == prefixCls + "-rtl"
    ensures ClassEntry(childClassName) != [] ==> r[|r| - 1] == childClassName.value
  {
    [prefixCls + "-trigger"]
      + (if direction == RightToLeft then [prefixCls + "-rtl"] else [])
      + ClassEntry(childClassName)
  }

  /** The classes of the overlay: the caller's overlayClassName, then the mirrored-layout class under `rtl`. */
  function OverlayClassList(overlayClassName: Option<string>, prefixCls: string, direction: Direction): (r: seq<string>)
    ensures |r| == |ClassEntry(overlayClassName)| + (if direction == RightToLeft then 1 else 0)
    ensures ClassEntry(overlayClassName) != [] ==> r[0] == overlayClassName.value
    ensures direction == RightToLeft ==> r[|r| - 1] == prefixCls + "-rtl"
  {
    ClassEntry(overlayClassName) + (if direction == RightToLeft then [prefixCls + "-rtl"] else [])
  }

  /** The mirrored-layout class is added exactly under `rtl` (barring a caller's class of that very name). */
  lemma RtlClassIffRightToLeft(prefixCls: string, direction: Direction, childClassName: Option<string>, overlayClassName: Option<string>)
    requires childClassName != Some(prefixCls + "-rtl") && overlayClassName != Some(prefixCls + "-rtl")
    ensures prefixCls + "-rtl" in TriggerClassList(prefixCls, direction, childClassName) <==> direction == RightToLeft
    ensures prefixCls + "-rtl" in OverlayClassList(overlayClassName, prefixCls, direction) <==> direction == RightToLeft
  {
  }

  /**
   * The trigger child as handed to the primitive: its className replaced by the composed
   * class list and its `disabled` prop set to the dropdown's own; nothing else changes.
   */
  function BindTrigger(child: Node, prefixCls: string, direction: Direction, disabled: Option<bool>): (r: Node)
    ensures r.kind == child.kind
    ensures r.props.className == Some(JoinClasses(TriggerClassList(prefixCls, direction, child.props.className)))
    ensures r.props.disabled == disabled
    ensures r.props.(className := child.props.className, disabled := child.props.disabled) == child.props
  {
    child.(props := child.props.(
      className := Some(JoinClasses(TriggerClassList(prefixCls, direction, child.props.className))),
      disabled := disabled))
  }

  // ---------------------------------------------------------------------------
  // The component
  // ---------------------------------------------------------------------------

  /** The props of `Dropdown` that the resolution layer reads. */
  datatype DropdownProps = DropdownProps(
    overlay: Overlay,
    trigger: Option<seq<TriggerAction>>,
    disabled: Option<bool>,
    transitionName: Option<string>,
    placement: Option<Placement>,
    overlayClassName: Option<string>,
    children: Value)

  /** The props computed for the positioning primitive, and the trigger child it wraps. */
  datatype PrimitiveProps = PrimitiveProps(
    alignPoint: Option<bool>,
    overlayClassName: string,
    prefixCls: string,
    transitionName: string,
    trigger: Option<seq<TriggerAction>>,
    overlay: () -> Result<NormalizedOverlay, RenderError>,
    placement: string,
    child: Node)

  /** One render: the primitive's props and the warnings raised while computing them. */
  datatype Rendered = Rendered(primitive: PrimitiveProps, warnings: seq<Warning>)

  /**
   * One render of `Dropdown`, given the resolved class prefix of the component, the
   * root prefix and the text direction from the configuration context. The overlay is
   * handed over unrendered, as a thunk; the child must be a single element.
   */
  function RenderDropdown(props: DropdownProps, prefixCls: string, rootPrefixCls: string, direction: Direction)
    : (r: Result<Rendered, RenderError>)
    ensures r.Err? <==> !props.children.Element?
    ensures r.Ok? ==>
      var out := r.value.primitive;
      && out.child == BindTrigger(props.children.node, prefixCls, direction, props.disabled)
      && out.overlay() == RenderOverlay(props.overlay, prefixCls)
      && (props.disabled == Some(true) ==> out.trigger == Some([]) && out.alignPoint.None?)
      && (props.disabled != Some(true) ==> out.trigger == props.trigger)
      && (out.alignPoint == Some(true)
          <==> props.disabled != Some(true) && props.trigger.Some? && ContextMenu in props.trigger.value)
      && out.alignPoint != Some(false)
      && out.prefixCls == prefixCls
      && out.overlayClassName == JoinClasses(OverlayClassList(props.overlayClassName, prefixCls, direction))
      && out.transitionName == GetTransitionName(rootPrefixCls, props.placement, props.transitionName)
      && out.placement == GetPlacement(props.placement, direction).placement
      && r.value.warnings
         == (if GetPlacement(props.placement, direction).warning.Some?
             then [GetPlacement(props.placement, direction).warning.value] else [])
      && ParsePlacement(out.placement).Some?
      && !Includes(out.placement, "Center")
      && |r.value.warnings| <= 1
      && (|r.value.warnings| == 1 <==> props.placement.Some? && IsCenter(props.placement.value))
  {
    match ChildrenOnly(props.children)
    case Err(e) => Err(e)
    case Ok(child) =>
      var actions := TriggerActions(props.disabled, props.trigger);
      var resolved := GetPlacement(props.placement, direction);
      ResolvedPlacementWellFormed(props.placement, direction);
      AlignPointFromConfiguration(props.disabled, props.trigger);
      Ok(Rendered(
        PrimitiveProps(
          AlignPoint(actions),
          JoinClasses(OverlayClassList(props.overlayClassName, prefixCls, direction)),
          prefixCls,
          GetTransitionName(rootPrefixCls, props.placement, props.transitionName),
          actions,
          () => RenderOverlay(props.overlay, prefixCls),
          resolved.placement,
          BindTrigger(child, prefixCls, direction, props.disabled)),
        if resolved.warning.Some? then [resolved.warning.value] else []))
  }
}
