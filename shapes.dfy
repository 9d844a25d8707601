/**
 * The two renderables that create the drawables: OmnidirectionalSensor (a shape that
 * offers a sensor drawable to the surface queue) and VisibilityMockup (a renderable that
 * offers a mockup drawable to the screen queue). Both are movable and validate their
 * arguments; both obtain their shader programs from the render context's registry by
 * lookup-or-create. The render context is reduced to what these two classes use:
 * the pick mode, whether the terrain covers anything, the program registry and the
 * list of drawables offered so far.
 */
module Shapes {
  import opened Gles
  import opened Resources
  import SensorDrawables
  import MockupDrawables

  /** The IllegalArgumentException messages the constructors and setters raise. */
  datatype ArgumentError = MissingPosition | InvalidRange

  /** Either the value an operation returns, or the argument error it throws. */
  datatype Result<T> = Success(value: T) | Failure(error: ArgumentError)

  /** WorldWind.ABSOLUTE: altitudes are taken as given, above the ellipsoid. */
  const ABSOLUTE: int := 0

  /** The occluded colour of a sensor outside pick mode: red at half opacity. */
  const OccludedColor: Color := Color(1.0, 0.0, 0.0, 0.5)

  /** A geographic position, a mutable object shared by reference unless copied. */
  class Position {
    var latitude: real
    var longitude: real
    var altitude: real

    constructor (latitude: real, longitude: real, altitude: real)
      ensures this.latitude == latitude && this.longitude == longitude && this.altitude == altitude
    {
      this.latitude, this.longitude, this.altitude := latitude, longitude, altitude;
    }

    /** Position.set: copies the other position's values into this object. */
    method Set(other: Position)
      modifies this
      ensures SameAs(old(other.latitude), old(other.longitude), old(other.altitude))
    {
      latitude, longitude, altitude := other.latitude, other.longitude, other.altitude;
    }

    predicate SameAs(latitude: real, longitude: real, altitude: real)
      reads this
    {
      this.latitude == latitude && this.longitude == longitude && this.altitude == altitude
    }
  }

  /** A fresh position holding a copy of the given one's values (new Position() then set). */
  method CopyOf(position: Position) returns (copy: Position)
    ensures fresh(copy) && copy.SameAs(position.latitude, position.longitude, position.altitude)
  {
    copy := new Position(0.0, 0.0, 0.0);
    copy.Set(position);
  }

  // ---------------------------------------------------------------------------------
  // The shader program registry

  /**
   * The render context's shader program cache: at most one program per key. A new
   * program instance gets the next serial number, which stands for its identity.
   */
  datatype Registry = Registry(programs: map<ProgramKey, Program>, nextSerial: nat)
  {
    /** Each entry was created for its own key, and no two entries share an instance. */
    predicate Valid()
    {
      (forall k :: k in programs ==> programs[k].key == k && programs[k].serial < nextSerial) &&
      (forall k1, k2 :: k1 in programs && k2 in programs && k1 != k2 ==> programs[k1].serial != programs[k2].serial)
    }
  }

  /**
   * getShaderProgram followed, when it returns null, by putShaderProgram of a new
   * instance: the program obtained for the key, and the registry afterwards.
   */
  function LookupOrCreate(r: Registry, key: ProgramKey): (Program, Registry)
  {
    if key in r.programs then (r.programs[key], r)
    else
      var created := Program(key, r.nextSerial);
      (created, Registry(r.programs[key := created], r.nextSerial + 1))
  }

  /**
   * Lookup-or-create returns the registered instance when there is one and changes
   * nothing; otherwise it registers a new instance for the key and leaves every other
   * entry alone. Either way the key ends up mapped to the instance returned.
   */
  lemma LookupOrCreateReuses(r: Registry, key: ProgramKey)
    requires r.Valid()
    ensures var (p, r') := LookupOrCreate(r, key);
      r'.Valid() && p.key == key && key in r'.programs && r'.programs[key] == p &&
      (key in r.programs <==> r' == r) &&
      (forall k :: k in r.programs ==> k in r'.programs && r'.programs[k] == r.programs[k]) &&
      r'.programs.Keys == r.programs.Keys + {key}
  {
    if key !in r.programs {
      var (p, r') := LookupOrCreate(r, key);
      assert r'.nextSerial == r.nextSerial + 1;
      assert r' != r by { assert key in r'.programs; }
    }
  }

  /** A second lookup of the same key returns the same instance and leaves the registry as the first left it. */
  lemma LookupOrCreateIdempotent(r: Registry, key: ProgramKey)
    requires r.Valid()
    ensures var (p, r') := LookupOrCreate(r, key);
      LookupOrCreate(r', key) == (p, r')
  {
    LookupOrCreateReuses(r, key);
  }

  /** The instances obtained by a series of lookups, in order, and the registry afterwards. */
  function LookupAll(r: Registry, keys: seq<ProgramKey>): (res: (seq<Program>, Registry))
    ensures |res.0| == |keys|
    decreases |keys|
  {
    if keys == [] then ([], r)
    else
      var (p, r1) := LookupOrCreate(r, keys[0]);
      var (ps, r2) := LookupAll(r1, keys[1..]);
      ([p] + ps, r2)
  }

  /**
   * However many lookups are made, every lookup of a key yields the one instance the
   * registry ends up holding for it: one instance per key, and distinct keys never
   * share an instance. Entries present before are never replaced.
   */
  lemma {:induction false} OneInstancePerKey(r: Registry, keys: seq<ProgramKey>)
    requires r.Valid()
    ensures var (ps, r') := LookupAll(r, keys);
      r'.Valid() &&
      (forall i :: 0 <= i < |keys| ==> keys[i] in r'.programs && ps[i] == r'.programs[keys[i]]) &&
      (forall k :: k in r.programs ==> k in r'.programs && r'.programs[k] == r.programs[k])
    decreases |keys|
  {
    if keys != [] {
      var (p, r1) := LookupOrCreate(r, keys[0]);
      LookupOrCreateReuses(r, keys[0]);
      var (ps, r2) := LookupAll(r1, keys[1..]);
      OneInstancePerKey(r1, keys[1..]);
      var (all, r') := LookupAll(r, keys);
      assert all == [p] + ps && r' == r2;
      forall i | 0 <= i < |keys|
        ensures keys[i] in r'.programs && all[i] == r'.programs[keys[i]]
      {
        if i > 0 {
          assert keys[i] == keys[1..][i - 1];
        }
      }
    }
  }

  /** Which of the frame's drawable queues an offered drawable goes to (WorldWind's drawable groups). */
  datatype DrawableGroup = BackgroundDrawable | SurfaceDrawable | ShapeDrawable | ScreenDrawable

  /** The drawables the shapes of this model create. */
  datatype Drawable =
    | SensorDrawable(sensor: SensorDrawables.DrawableOmnidirectionalSensor)
    | MockupDrawable(mockup: MockupDrawables.DrawableVisibilityMockup)

  /** A drawable handed to the render context, with its group and z-order. */
  datatype Offer = Offer(drawable: Drawable, group: DrawableGroup, zOrder: real)

  /** The part of the render context the two renderables use. */
  class RenderContext {
    var pickMode: bool
    var terrainSectorEmpty: bool  // rc.terrain.getSector().isEmpty()
    var registry: Registry
    var offered: seq<Offer>

    constructor (pickMode: bool, terrainSectorEmpty: bool)
      ensures this.pickMode == pickMode && this.terrainSectorEmpty == terrainSectorEmpty
      ensures registry == Registry(map[], 0) && offered == [] && Valid()
    {
      this.pickMode, this.terrainSectorEmpty := pickMode, terrainSectorEmpty;
      registry := Registry(map[], 0);
      offered := [];
    }

    predicate Valid()
      reads this`registry
    {
      registry.Valid()
    }

    /** getShaderProgram: the registered program for the key, or none (null). */
    function GetShaderProgram(key: ProgramKey): (p: Option<Program>)
      reads this`registry
      ensures p.Some? <==> key in registry.programs
      ensures p.Some? ==> p.value == registry.programs[key]
    {
      if key in registry.programs then Some(registry.programs[key]) else None
    }

    /** A new program instance for the key (new SensorProgram(rc.resources) and the like). */
    method NewProgram(key: ProgramKey) returns (p: Program)
      modifies this`registry
      ensures p == Program(key, old(registry.nextSerial))
      ensures registry == old(registry).(nextSerial := old(registry.nextSerial) + 1)
    {
      p := Program(key, registry.nextSerial);
      registry := registry.(nextSerial := registry.nextSerial + 1);
    }

    /** putShaderProgram: registers the program under the key and returns it. */
    method PutShaderProgram(key: ProgramKey, program: Program) returns (p: Program)
      modifies this`registry
      ensures p == program && registry == old(registry).(programs := old(registry.programs)[key := program])
    {
      registry := registry.(programs := registry.programs[key := program]);
      p := program;
    }

    /** offerDrawable: queues the drawable in the given group with the given z-order. */
    method OfferDrawable(drawable: Drawable, group: DrawableGroup, zOrder: real)
      modifies this`offered
      ensures offered == old(offered) + [Offer(drawable, group, zOrder)]
    {
      offered := offered + [Offer(drawable, group, zOrder)];
    }

    /** offerSurfaceDrawable: offerDrawable to the surface group. */
    method OfferSurfaceDrawable(drawable: Drawable, zOrder: real)
      modifies this`offered
      ensures offered == old(offered) + [Offer(drawable, SurfaceDrawable, zOrder)]
    {
      OfferDrawable(drawable, SurfaceDrawable, zOrder);
    }
  }

  /**
   * The lookup-or-create both renderables write out: getShaderProgram, and only when
   * it finds nothing, putShaderProgram of a new instance.
   */
  method ObtainProgram(rc: RenderContext, key: ProgramKey) returns (p: Program)
    modifies rc`registry
    ensures (p, rc.registry) == LookupOrCreate(old(rc.registry), key)
  {
    var found := rc.GetShaderProgram(key);
    if found.None? {
      var created := rc.NewProgram(key);
      p := rc.PutShaderProgram(key, created);
    } else {
      p := found.value;
    }
  }

  // ---------------------------------------------------------------------------------
  // OmnidirectionalSensor

  /** A sensor shape: a position and a range, the radius of its sphere of view. */
  class OmnidirectionalSensor {
    var position: Position
    var range: real
    var transform: Matrix  // scratch: the local transform at the sensor's position

    /** The class invariant every constructor establishes and every setter keeps. */
    predicate Valid()
      reads this`range
    {
      range >= 0.0
    }

    /** The body shared by the constructors once the arguments are checked; the position is used as given. */
    constructor Init(position: Position, range: real)
      requires range >= 0.0
      ensures this.position == position && this.range == range && Valid()
    {
      this.position := position;
      this.range := range;
      transform := Identity;
    }

    /**
     * OmnidirectionalSensor(position, range): rejects a missing position, then a
     * negative range; keeps a copy of the position, so the caller's object stays its own.
     */
    static method WithRange(position: Position?, range: real) returns (r: Result<OmnidirectionalSensor>)
      ensures position == null ==> r == Failure(MissingPosition)
      ensures position != null && range < 0.0 ==> r == Failure(InvalidRange)
      ensures position != null && range >= 0.0 ==>
        r.Success? && fresh(r.value) && fresh(r.value.position) && r.value.Valid() && r.value.range == range &&
        r.value.position.SameAs(position.latitude, position.longitude, position.altitude)
    {
      if position == null {
        return Failure(MissingPosition);
      }
      if range < 0.0 {
        return Failure(InvalidRange);
      }
      var copy := CopyOf(position);
      var sensor := new OmnidirectionalSensor.Init(copy, range);
      r := Success(sensor);
    }

    /**
     * OmnidirectionalSensor(position, attributes): rejects a missing position; keeps the
     * caller's position object itself, and leaves the range at zero.
     */
    static method WithAttributes(position: Position?) returns (r: Result<OmnidirectionalSensor>)
      ensures position == null ==> r == Failure(MissingPosition)
      ensures position != null ==>
        r.Success? && fresh(r.value) && r.value.Valid() && r.value.position == position && r.value.range == 0.0
    {
      if position == null {
        return Failure(MissingPosition);
      }
      var sensor := new OmnidirectionalSensor.Init(position, 0.0);
      r := Success(sensor);
    }

    /**
     * OmnidirectionalSensor(position, range, attributes): rejects a missing position,
     * then a negative range; keeps the caller's position object itself.
     */
    static method WithRangeAndAttributes(position: Position?, range: real) returns (r: Result<OmnidirectionalSensor>)
      ensures position == null ==> r == Failure(MissingPosition)
      ensures position != null && range < 0.0 ==> r == Failure(InvalidRange)
      ensures position != null && range >= 0.0 ==>
        r.Success? && fresh(r.value) && r.value.Valid() && r.value.position == position && r.value.range == range
    {
      if position == null {
        return Failure(MissingPosition);
      }
      if range < 0.0 {
        return Failure(InvalidRange);
      }
      var sensor := new OmnidirectionalSensor.Init(position, range);
      r := Success(sensor);
    }

    function GetPosition(): Position
      reads this`position
    {
      position
    }

    /** getReferencePosition: the sensor's reference position is its position. */
    function GetReferencePosition(): (p: Position)
      reads this`position
      ensures p == GetPosition()
    {
      position
    }

    function GetRange(): (r: real)
      reads this`range
      ensures Valid() ==> r >= 0.0
    {
      range
    }

    /**
     * setPosition: rejects a missing position; otherwise copies its values into the
     * sensor's own position object (which stays the same object) and returns the sensor.
     */
    method SetPosition(position: Position?) returns (r: Result<OmnidirectionalSensor>)
      modifies this.position
      ensures position == null ==> r == Failure(MissingPosition) && unchanged(this.position)
      ensures position != null ==>
        r == Success(this) && this.position.SameAs(old(position.latitude), old(position.longitude), old(position.altitude))
    {
      if position == null {
        return Failure(MissingPosition);
      }
      this.position.Set(position);
      r := Success(this);
    }

    /** setRange: rejects a negative range, accepts zero, and returns the sensor. */
    method SetRange(range: real) returns (r: Result<OmnidirectionalSensor>)
      requires Valid()
      modifies this`range
      ensures Valid()
      ensures range < 0.0 ==> r == Failure(InvalidRange) && this.range == old(this.range)
      ensures range >= 0.0 ==> r == Success(this) && this.range == range
    {
      if range < 0.0 {
        return Failure(InvalidRange);
      }
      this.range := range;
      r := Success(this);
    }

    /** moveTo: exactly setPosition, whatever the globe. */
    method MoveTo(position: Position?) returns (r: Result<()>)
      modifies this.position
      ensures position == null ==> r == Failure(MissingPosition) && unchanged(this.position)
      ensures position != null ==>
        r == Success(()) && this.position.SameAs(old(position.latitude), old(position.longitude), old(position.altitude))
    {
      var outcome := SetPosition(position);
      r := if outcome.Success? then Success(()) else Failure(outcome.error);
    }

    /**
     * makeDrawable: a new sensor drawable placed by the local transform at the sensor's
     * position, with the sensor's range; in pick mode both colours are the pick colour,
     * otherwise the interior colour and half-transparent red. Its program is the registry's
     * sensor program, created on first use. The drawable goes to the surface queue at z-order 0.
     */
    method MakeDrawable(rc: RenderContext, altitudeMode: int, pickColor: Color, interiorColor: Color)
      returns (drawable: SensorDrawables.DrawableOmnidirectionalSensor)
      modifies this`transform, rc`registry, rc`offered
      ensures transform == CartesianToLocal(position.latitude, position.longitude, position.altitude, altitudeMode)
      ensures fresh(drawable)
      ensures drawable.sensorTransform == transform && drawable.range == range
      ensures drawable.visibleColor == if rc.pickMode then pickColor else interiorColor
      ensures drawable.occludedColor == if rc.pickMode then pickColor else OccludedColor
      ensures drawable.program.Some?
      ensures (drawable.program.value, rc.registry) == LookupOrCreate(old(rc.registry), SensorProgramKey)
      ensures rc.offered == old(rc.offered) + [Offer(SensorDrawable(drawable), SurfaceDrawable, 0.0)]
    {
      transform := CartesianToLocal(position.latitude, position.longitude, position.altitude, altitudeMode);
      drawable := new SensorDrawables.DrawableOmnidirectionalSensor();
      drawable.sensorTransform := transform;
      drawable.range := range;
      drawable.visibleColor := if rc.pickMode then pickColor else interiorColor;
      drawable.occludedColor := if rc.pickMode then pickColor else OccludedColor;
      var program := ObtainProgram(rc, SensorProgramKey);
      drawable.program := Some(program);
      rc.OfferSurfaceDrawable(SensorDrawable(drawable), 0.0);
    }
  }

  /** With the (position, attributes) constructor, a later change to the caller's position moves the sensor too. */
  method AliasedPositionFollowsCaller(position: Position, latitude: real, longitude: real, altitude: real)
    returns (sensor: OmnidirectionalSensor)
    modifies position
    ensures sensor.GetPosition().SameAs(latitude, longitude, altitude)
  {
    var r := OmnidirectionalSensor.WithAttributes(position);
    sensor := r.value;
    var moved := new Position(latitude, longitude, altitude);
    position.Set(moved);
  }

  /** With the (position, range) constructor, a later change to the caller's position leaves the sensor where it was. */
  method CopiedPositionStaysPut(position: Position, latitude: real, longitude: real, altitude: real)
    returns (sensor: OmnidirectionalSensor)
    modifies position
    ensures sensor.GetPosition().SameAs(old(position.latitude), old(position.longitude), old(position.altitude))
  {
    var r := OmnidirectionalSensor.WithRange(position, 0.0);
    sensor := r.value;
    var moved := new Position(latitude, longitude, altitude);
    position.Set(moved);
  }

  // ---------------------------------------------------------------------------------
  // VisibilityMockup

  /** The viewer's modelview: at the position, turned clockwise by the heading, looking along the surface, inverted. */
  function ViewerModelview(latitude: real, longitude: real, altitude: real, heading: real): Matrix
  {
    InvertOrthonormal(Rotate(Rotate(GeographicToCartesian(latitude, longitude, altitude), 0.0, 0.0, 1.0, -heading),
                             1.0, 0.0, 0.0, 90.0))
  }

  /** A viewer at a position with a heading and a square perspective frustum. */
  class VisibilityMockup {
    var position: Position
    var altitudeMode: int
    var heading: real
    var fieldOfView: real
    var nearDistance: real
    var farDistance: real
    var modelview: Matrix
    var projection: Matrix

    /** The field defaults, with the position used as given. */
    constructor Init(position: Position)
      ensures this.position == position
      ensures altitudeMode == ABSOLUTE && heading == 0.0 && fieldOfView == 90.0
      ensures nearDistance == 200.0 && farDistance == 20000.0
    {
      this.position := position;
      altitudeMode := ABSOLUTE;
      heading := 0.0;
      fieldOfView := 90.0;
      nearDistance := 2.0e2;
      farDistance := 2.0e4;
      modelview, projection := Identity, Identity;
    }

    /**
     * VisibilityMockup(position): rejects a missing position; otherwise keeps a copy of
     * it, with altitude mode ABSOLUTE, heading 0, a 90 degree field of view and a frustum
     * from 200 to 20000 metres.
     */
    static method Create(position: Position?) returns (r: Result<VisibilityMockup>)
      ensures position == null ==> r == Failure(MissingPosition)
      ensures position != null ==>
        r.Success? && fresh(r.value) && fresh(r.value.position) &&
        r.value.position.SameAs(position.latitude, position.longitude, position.altitude) &&
        r.value.altitudeMode == ABSOLUTE && r.value.heading == 0.0 && r.value.fieldOfView == 90.0 &&
        r.value.nearDistance == 200.0 && r.value.farDistance == 20000.0
    {
      if position == null {
        return Failure(MissingPosition);
      }
      var copy := CopyOf(position);
      var mockup := new VisibilityMockup.Init(copy);
      r := Success(mockup);
    }

    function GetPosition(): Position
      reads this`position
    {
      position
    }

    /** getReferencePosition: the mockup's reference position is its position. */
    function GetReferencePosition(): (p: Position)
      reads this`position
      ensures p == GetPosition()
    {
      position
    }

    /** setPosition: rejects a missing position; otherwise copies its values and returns the mockup. */
    method SetPosition(position: Position?) returns (r: Result<VisibilityMockup>)
      modifies this.position
      ensures position == null ==> r == Failure(MissingPosition) && unchanged(this.position)
      ensures position != null ==>
        r == Success(this) && this.position.SameAs(old(position.latitude), old(position.longitude), old(position.altitude))
    {
      if position == null {
        return Failure(MissingPosition);
      }
      this.position.Set(position);
      r := Success(this);
    }

    /** setAltitudeMode: stores the mode unchecked and returns the mockup. */
    method SetAltitudeMode(altitudeMode: int) returns (r: VisibilityMockup)
      modifies this`altitudeMode
      ensures r == this && this.altitudeMode == altitudeMode
    {
      this.altitudeMode := altitudeMode;
      r := this;
    }

    /** setHeading: stores the heading unchecked and returns the mockup. */
    method SetHeading(heading: real) returns (r: VisibilityMockup)
      modifies this`heading
      ensures r == this && this.heading == heading
    {
      this.heading := heading;
      r := this;
    }

    /** moveTo: exactly setPosition, whatever the globe. */
    method MoveTo(position: Position?) returns (r: Result<()>)
      modifies this.position
      ensures position == null ==> r == Failure(MissingPosition) && unchanged(this.position)
      ensures position != null ==>
        r == Success(()) && this.position.SameAs(old(position.latitude), old(position.longitude), old(position.altitude))
    {
      var outcome := SetPosition(position);
      r := if outcome.Success? then Success(()) else Failure(outcome.error);
    }

    /**
     * doRender: with no terrain to draw on, nothing at all happens. Otherwise a new mockup
     * drawable gets the viewer's modelview-projection (the altitude mode is not consulted),
     * the registry's basic program and mockup program, each created on first use, and is
     * offered to the screen queue at z-order 0.
     */
    method DoRender(rc: RenderContext) returns (drawable: MockupDrawables.DrawableVisibilityMockup?)
      modifies this`modelview, this`projection, rc`registry, rc`offered
      ensures rc.terrainSectorEmpty ==> drawable == null && unchanged(this, rc)
      ensures !rc.terrainSectorEmpty ==>
        drawable != null && fresh(drawable) &&
        modelview == ViewerModelview(position.latitude, position.longitude, position.altitude, heading) &&
        projection == Perspective(1.0, 1.0, fieldOfView, nearDistance, farDistance) &&
        drawable.viewerMvpMatrix == Multiply(projection, modelview) &&
        drawable.program.Some? && drawable.mockupProgram.Some? &&
        var (basic, r1) := LookupOrCreate(old(rc.registry), BasicProgramKey);
        var (mockup, r2) := LookupOrCreate(r1, MockupProgramKey);
        drawable.program.value == basic && drawable.mockupProgram.value == mockup && rc.registry == r2 &&
        rc.offered == old(rc.offered) + [Offer(MockupDrawable(drawable), ScreenDrawable, 0.0)]
    {
      if rc.terrainSectorEmpty {
        return null;
      }
      drawable := new MockupDrawables.DrawableVisibilityMockup();
      modelview := ViewerModelview(position.latitude, position.longitude, position.altitude, heading);
      projection := Perspective(1.0, 1.0, fieldOfView, nearDistance, farDistance);
      drawable.viewerMvpMatrix := Multiply(projection, modelview);
      var basic := ObtainProgram(rc, BasicProgramKey);
      drawable.program := Some(basic);
      var mockup := ObtainProgram(rc, MockupProgramKey);
      drawable.mockupProgram := Some(mockup);
      rc.OfferDrawable(MockupDrawable(drawable), ScreenDrawable, 0.0);
    }
  }

  /** Rendering the mockup twice in one frame offers two drawables that share both programs. */
  method RenderTwiceSharesPrograms(mockup: VisibilityMockup, rc: RenderContext)
    returns (first: MockupDrawables.DrawableVisibilityMockup?, second: MockupDrawables.DrawableVisibilityMockup?)
    requires rc.Valid() && !rc.terrainSectorEmpty
    modifies mockup`modelview, mockup`projection, rc`registry, rc`offered
    ensures first != null && second != null && first != second
    ensures first.program == second.program && first.mockupProgram == second.mockupProgram
    ensures first.program != first.mockupProgram
  {
    var r0 := rc.registry;
    first := mockup.DoRender(rc);
    LookupOrCreateReuses(r0, BasicProgramKey);
    var r1 := LookupOrCreate(r0, BasicProgramKey).1;
    LookupOrCreateReuses(r1, MockupProgramKey);
    var r2 := rc.registry;
    second := mockup.DoRender(rc);
    LookupOrCreateIdempotent(r2, BasicProgramKey);
    LookupOrCreateIdempotent(r2, MockupProgramKey);
  }
}
