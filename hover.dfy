/**
 * The direction-aware hover overlay: a card whose overlay slides in from
 * the edge the pointer crossed on desktop, and fades in on mobile.
 *
 * Pointer coordinates are taken as already relative to the element's
 * bounding box (the box itself is read from the browser and is a parameter).
 */
module HoverOverlay {
  import opened Common

  /** The edge a pointer is judged to have crossed. */
  datatype Direction = Top | Right | Bottom | Left

  /** The element's size, as `getBoundingClientRect` reports it. */
  datatype Bounds = Bounds(width: real, height: real)

  /** A pointer position relative to the element's top-left corner. */
  datatype Point = Point(x: real, y: real)

  /** The viewport width at and below which the card uses its mobile behaviour. */
  const MobileBreakpoint: int := 1024

  function Abs(r: real): real { if r < 0.0 then -r else r }

  /**
   * The dominant-axis rule. Deltas are measured from the centre; the
   * horizontal axis wins only when it is strictly larger, so ties (and the
   * exact centre) go to the vertical axis. Stated without `Abs`, the result
   * is the wedge between the two diagonals through the centre that holds
   * the point.
   */
  function Classify(p: Point, b: Bounds): (d: Direction)
    ensures var dx, dy := p.x - b.width / 2.0, p.y - b.height / 2.0;
      && (d == Right  <==> dx > dy && dx > -dy)
      && (d == Left   <==> dx < dy && dx < -dy)
      && (d == Bottom <==> dy > 0.0 && -dy <= dx <= dy)
      && (d == Top    <==> dy <= 0.0 && dy <= dx <= -dy)
  {
    var dx := p.x - b.width / 2.0;
    var dy := p.y - b.height / 2.0;
    if Abs(dx) > Abs(dy) then
      (if dx > 0.0 then Right else Left)
    else
      (if dy > 0.0 then Bottom else Top)
  }

  /**
   * `getDirection`: never null. A missing element reference or an event
   * without coordinates gives `Top`; otherwise the point is classified.
   */
  function GetDirection(element: Option<Bounds>, pointer: Option<Point>): (d: Direction)
    ensures element.None? || pointer.None? ==> d == Top
    ensures element.Some? && pointer.Some? ==> d == Classify(pointer.value, element.value)
  {
    match (element, pointer)
    case (Some(b), Some(p)) => Classify(p, b)
    case _ => Top
  }

  /** Reflecting the point across the vertical centre line swaps left and right. */
  lemma MirrorHorizontally(p: Point, b: Bounds)
    ensures var d, m := Classify(p, b), Classify(Point(b.width - p.x, p.y), b);
      && (d == Right <==> m == Left)
      && (d == Left <==> m == Right)
      && (d == Top <==> m == Top)
      && (d == Bottom <==> m == Bottom)
  {
  }

  /**
   * Reflecting the point across the horizontal centre line swaps top and
   * bottom everywhere except at the exact centre, which is `Top` both ways
   * because of the vertical tie-break.
   */
  lemma MirrorVertically(p: Point, b: Bounds)
    ensures var d, m := Classify(p, b), Classify(Point(p.x, b.height - p.y), b);
      && (d == Right <==> m == Right)
      && (d == Left <==> m == Left)
      && (p == Point(b.width / 2.0, b.height / 2.0) ==> d == Top && m == Top)
      && (p != Point(b.width / 2.0, b.height / 2.0) ==> (d == Top <==> m == Bottom))
  {
  }

  /** The worked examples on a 100 by 100 card. */
  lemma SquareCardExamples()
    ensures Classify(Point(90.0, 50.0), Bounds(100.0, 100.0)) == Right
    ensures Classify(Point(10.0, 50.0), Bounds(100.0, 100.0)) == Left
    ensures Classify(Point(50.0, 90.0), Bounds(100.0, 100.0)) == Bottom
    ensures Classify(Point(50.0, 10.0), Bounds(100.0, 100.0)) == Top
    ensures Classify(Point(50.0, 50.0), Bounds(100.0, 100.0)) == Top
  {
  }

  /**
   * The overlay's animation target. Offsets are percentages of the card's
   * size; `opacity` is `None` where the target leaves opacity as it was.
   */
  datatype Transform = Transform(x: int, y: int, opacity: Option<int>)

  /** Where the hidden overlay rests, just outside the given edge. */
  function Resting(d: Direction): (t: Transform)
    ensures t.opacity == None
    ensures Abs(t.x as real) + Abs(t.y as real) == 100.0
    ensures (t.x == 0) <==> (d == Top || d == Bottom)
    ensures (t.y == 0) <==> (d == Left || d == Right)
    ensures t.x > 0 <==> d == Right
    ensures t.x < 0 <==> d == Left
    ensures t.y > 0 <==> d == Bottom
    ensures t.y < 0 <==> d == Top
  {
    match d
    case Top => Transform(0, -100, None)
    case Right => Transform(100, 0, None)
    case Bottom => Transform(0, 100, None)
    case Left => Transform(-100, 0, None)
  }

  /**
   * `getOverlayTransform`, checked in the code's order: an unset direction
   * first, then the mobile fade, then the desktop slide.
   */
  function OverlayTransform(direction: Option<Direction>, hovered: bool, touched: bool, mobile: bool): (t: Transform)
    ensures direction.None? ==> t == Transform(0, -100, None)
    ensures direction.Some? && mobile ==> t == Transform(0, 0, Some(if hovered || touched then 1 else 0))
    ensures direction.Some? && !mobile ==> t.opacity == None
    ensures direction.Some? && !mobile && (hovered || touched) ==> t.x == 0 && t.y == 0
    ensures direction.Some? && !mobile && !(hovered || touched) ==> t == Resting(direction.value)
  {
    var visible := hovered || touched;
    if direction.None? then Transform(0, -100, None)
    else if mobile then Transform(0, 0, Some(if visible then 1 else 0))
    else if visible then Transform(0, 0, None)
    else Resting(direction.value)
  }

  /**
   * On desktop the hidden overlay rests on the side of the card the pointer
   * left by: its offset never points away from the pointer, and points
   * strictly towards it except at the exact centre.
   */
  lemma RestingFacesPointer(p: Point, b: Bounds, hovered: bool, touched: bool)
    requires !hovered && !touched
    ensures var t := OverlayTransform(Some(Classify(p, b)), hovered, touched, false);
      var dx, dy := p.x - b.width / 2.0, p.y - b.height / 2.0;
      && t.x as real * dx + t.y as real * dy >= 0.0
      && (dx != 0.0 || dy != 0.0 ==> t.x as real * dx + t.y as real * dy > 0.0)
  {
  }

  /** The transform is a function of the state alone: a hidden desktop overlay
   *  with any direction is off the card, a visible one fully on it. */
  lemma DesktopVisibilityIsPosition(d: Direction, hovered: bool, touched: bool)
    ensures var t := OverlayTransform(Some(d), hovered, touched, false);
      (t.x == 0 && t.y == 0) <==> (hovered || touched)
  {
  }

  /**
   * One hover card's state. `pendingClears` holds the delays of the
   * auto-clear timers that are scheduled and have not fired: the code never
   * clears an earlier timer, so these accumulate.
   */
  class HoverCard {
    var direction: Option<Direction>
    var isHovered: bool
    var isTouched: bool
    var isMobile: bool
    var pendingClears: multiset<int>

    /** The delay of the timer scheduled by touch end. */
    static const TouchClearDelay: int := 3000
    /** The delay of the timer scheduled by a tap that turns the overlay on. */
    static const TapClearDelay: int := 5000

    /** Every pending timer was scheduled by one of the two handlers. */
    ghost predicate Valid()
      reads this
    {
      forall delay :: delay in pendingClears ==> delay == TouchClearDelay || delay == TapClearDelay
    }

    /** The animation target the card renders with. */
    function Target(): (t: Transform)
      reads this
      ensures direction.None? ==> t == Resting(Top)
      ensures direction.Some? ==> ((t.x == 0 && t.y == 0 && t.opacity != Some(0)) <==> (isHovered || isTouched))
    {
      OverlayTransform(direction, isHovered, isTouched, isMobile)
    }

    /** The initial state, before the mount effect has read the viewport. */
    constructor ()
      ensures Valid()
      ensures direction == None && !isHovered && !isTouched && !isMobile
      ensures pendingClears == multiset{}
    {
      direction := None;
      isHovered := false;
      isTouched := false;
      isMobile := false;
      pendingClears := multiset{};
    }

    /** `checkMobile`, run on mount and on every resize. */
    method CheckMobile(viewportWidth: int)
      requires Valid()
      modifies this
      ensures Valid()
      ensures isMobile == (viewportWidth <= MobileBreakpoint)
      ensures direction == old(direction) && isHovered == old(isHovered)
      ensures isTouched == old(isTouched) && pendingClears == old(pendingClears)
    {
      isMobile := viewportWidth <= MobileBreakpoint;
    }

    /** `handleMouseEnter`: classify the entry point on desktop, `Top` on mobile. */
    method MouseEnter(element: Option<Bounds>, pointer: Point)
      requires Valid()
      modifies this
      ensures Valid()
      ensures isHovered
      ensures direction == Some(if old(isMobile) then Top else GetDirection(element, Some(pointer)))
      ensures isTouched == old(isTouched) && isMobile == old(isMobile)
      ensures pendingClears == old(pendingClears)
    {
      if !isMobile {
        var dir := GetDirection(element, Some(pointer));
        direction := Some(dir);
      } else {
        direction := Some(Top);
      }
      isHovered := true;
    }

    /** `handleMouseLeave`: reclassify from the exit point on desktop only. */
    method MouseLeave(element: Option<Bounds>, pointer: Point)
      requires Valid()
      modifies this
      ensures Valid()
      ensures !isHovered
      ensures direction == if old(isMobile) then old(direction) else Some(GetDirection(element, Some(pointer)))
      ensures isTouched == old(isTouched) && isMobile == old(isMobile)
      ensures pendingClears == old(pendingClears)
    {
      if !isMobile {
        var dir := GetDirection(element, Some(pointer));
        direction := Some(dir);
      }
      isHovered := false;
    }

    /** `handleTouchStart`: `Top` and touched, whatever the viewport. */
    method TouchStart()
      requires Valid()
      modifies this
      ensures Valid()
      ensures direction == Some(Top) && isTouched
      ensures isHovered == old(isHovered) && isMobile == old(isMobile)
      ensures pendingClears == old(pendingClears)
    {
      direction := Some(Top);
      isTouched := true;
    }

    /** `handleTouchEnd`: schedules one more clear, changes nothing now. */
    method TouchEnd()
      requires Valid()
      modifies this
      ensures Valid()
      ensures pendingClears == old(pendingClears) + multiset{TouchClearDelay}
      ensures direction == old(direction) && isHovered == old(isHovered)
      ensures isTouched == old(isTouched) && isMobile == old(isMobile)
    {
      pendingClears := pendingClears + multiset{TouchClearDelay};
    }

    /**
     * `handleClick`: nothing on desktop. On mobile it toggles `isTouched`;
     * turning it on also sets `Top` and schedules a clear.
     */
    method Click()
      requires Valid()
      modifies this
      ensures Valid()
      ensures !old(isMobile) ==>
                direction == old(direction) && isTouched == old(isTouched) && pendingClears == old(pendingClears)
      ensures old(isMobile) ==> isTouched == !old(isTouched)
      ensures old(isMobile) && !old(isTouched) ==>
                direction == Some(Top) && pendingClears == old(pendingClears) + multiset{TapClearDelay}
      ensures old(isMobile) && old(isTouched) ==>
                direction == old(direction) && pendingClears == old(pendingClears)
      ensures isHovered == old(isHovered) && isMobile == old(isMobile)
    {
      if isMobile {
        var wasTouched := isTouched;
        isTouched := !wasTouched;
        if !wasTouched {
          direction := Some(Top);
          pendingClears := pendingClears + multiset{TapClearDelay};
        }
      }
    }

    /** A pending auto-clear timer fires: it only ever clears `isTouched`. */
    method ClearFires(delay: int)
      requires Valid()
      requires delay in pendingClears
      modifies this
      ensures Valid()
      ensures delay == TouchClearDelay || delay == TapClearDelay
      ensures !isTouched
      ensures pendingClears == old(pendingClears) - multiset{delay}
      ensures direction == old(direction) && isHovered == old(isHovered) && isMobile == old(isMobile)
    {
      isTouched := false;
      pendingClears := pendingClears - multiset{delay};
    }
  }

  /**
   * On mobile, mouse enter and leave never classify the pointer: the
   * direction is `Top` after an enter and unchanged by a leave, and the
   * target is the plain fade.
   */
  method MobileIgnoresPointer(card: HoverCard, element: Option<Bounds>, enter: Point, exit: Point)
    requires card.Valid() && card.isMobile
    modifies card
    ensures card.direction == Some(Top) && !card.isHovered
    ensures card.Target() == Transform(0, 0, Some(if card.isTouched then 1 else 0))
  {
    card.MouseEnter(element, enter);
    assert card.Target() == Transform(0, 0, Some(1));
    card.MouseLeave(element, exit);
  }

  /**
   * Touch timers are not replaced: after touch end, a new touch and a
   * second touch end, two clears are pending, and the earlier one hides the
   * overlay while the later one has yet to fire.
   */
  method EarlierClearStillFires(card: HoverCard)
    requires card.Valid() && card.isMobile && card.pendingClears == multiset{}
    modifies card
    ensures card.pendingClears == multiset{HoverCard.TouchClearDelay}
    ensures !card.isTouched
    ensures !card.isHovered ==> card.Target().opacity == Some(0)
  {
    card.TouchStart();
    card.TouchEnd();
    card.TouchStart();
    card.TouchEnd();
    assert card.pendingClears == multiset{HoverCard.TouchClearDelay, HoverCard.TouchClearDelay};
    card.ClearFires(HoverCard.TouchClearDelay);
  }
}
