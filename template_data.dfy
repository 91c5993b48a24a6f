/** The template-data assembler (internal/generator/template_data.go): the
    unit and layout guards, the resolution of declared switch types against
    the module repository, the thumb-cluster view, and the all-or-nothing
    construction of the aggregate handed to the templates. */
module Templates {
  import opened Errors
  import opened Config
  import opened SwitchRepo
  import opened KeyMatrix

  datatype TemplateKeywell = TemplateKeywell(
    tiltAngle: real,
    verticalRadius: real,
    horizontalRadius: real,
    centerOffset: Offset,
    innerLipSize: real,
    outerLipSize: real,
    indexFingerStartColumn: int,
    matrix: seq<seq<KeyModifier>>)

  const DefaultThumbKey: ThumbKey := ThumbKey(ZeroOffset, ZeroRotation, Regular)

  datatype TemplateThumbCluster = TemplateThumbCluster(
    originColumnIndex: int,
    offset: Offset,
    rotation: Rotation,
    keys: map<int, ThumbKey>)
  {
    /** Exactly three keys in slot order; a missing slot gets a zero-offset,
        zero-rotation "regular" key, and slots outside 0..2 are ignored. */
    method Keys() returns (result: seq<ThumbKey>)
      ensures |result| == 3
      ensures forall i :: 0 <= i < 3 ==> result[i] == if i in keys then keys[i] else DefaultThumbKey
    {
      result := [];
      for i := 0 to 3
        invariant |result| == i
        invariant forall j :: 0 <= j < i ==> result[j] == if j in keys then keys[j] else DefaultThumbKey
      {
        if i in keys {
          result := result + [keys[i]];
        } else {
          result := result + [ThumbKey(Off(0.0, 0.0, 0.0), Rot(0.0, 0.0, 0.0), "regular")];
        }
      }
    }
  }

  /** The aggregate the templates read. The switch repository built for it
      is kept as its (immutable) map of specialised modules. */
  datatype TemplateData = TemplateData(
    units: Units,
    layout: Layout,
    switches: map<string, SwitchModuleDefinition>,
    geometry: GeometryConfig,
    keywell: TemplateKeywell,
    render: Render,
    thumbCluster: TemplateThumbCluster)
  {
    /** Every switch-type name once, in map order. */
    method AllSwitchTypes() returns (types: seq<string>)
      ensures |types| == |switches|
      ensures forall i :: 0 <= i < |types| ==> types[i] in switches
      ensures forall name :: name in switches ==> name in types
      ensures forall i, j :: 0 <= i < j < |types| ==> types[i] != types[j]
    {
      types := [];
      var pending := switches.Keys;
      while pending != {}
        invariant pending <= switches.Keys
        invariant |types| + |pending| == |switches|
        invariant forall i :: 0 <= i < |types| ==> types[i] in switches && types[i] !in pending
        invariant forall name :: name in switches && name !in pending ==> name in types
        invariant forall i, j :: 0 <= i < j < |types| ==> types[i] != types[j]
        decreases pending
      {
        var name :| name in pending;
        types := types + [name];
        pending := pending - {name};
      }
    }

    /** One footprint file per switch type, in map order: each file name
        occurs as often as there are switch types using it. */
    method AllSwitchIncludes() returns (includes: seq<string>)
      ensures |includes| == |switches|
      ensures forall f :: multiset(includes)[f] == |TypesUsingFile(switches.Keys, f)|
    {
      includes := [];
      var pending := switches.Keys;
      while pending != {}
        invariant pending <= switches.Keys
        invariant |includes| + |pending| == |switches|
        invariant forall f :: multiset(includes)[f] == |TypesUsingFile(switches.Keys - pending, f)|
        decreases pending
      {
        var name :| name in pending;
        var file := switches[name].filename;
        forall f
          ensures |TypesUsingFile(switches.Keys - (pending - {name}), f)|
                    == |TypesUsingFile(switches.Keys - pending, f)| + (if f == file then 1 else 0)
        {
          var before := TypesUsingFile(switches.Keys - pending, f);
          if f == file {
            assert TypesUsingFile(switches.Keys - (pending - {name}), f) == before + {name};
          } else {
            assert TypesUsingFile(switches.Keys - (pending - {name}), f) == before;
          }
        }
        includes := includes + [file];
        pending := pending - {name};
      }
      assert switches.Keys - pending == switches.Keys;
    }

    /** The switch types among `names` whose footprint file is `file`. */
    function TypesUsingFile(names: set<string>, file: string): set<string> {
      set name | name in names && name in switches && switches[name].filename == file
    }
  }

  /** Only millimetres and degrees are supported; length is checked first. */
  function ValidateUnits(units: Units): (r: Outcome)
    ensures r.Pass? <==> units.length == "mm" && units.angle == "deg"
    ensures units.length != "mm" ==> r == Fail(LengthUnitUnsupported)
    ensures units.length == "mm" && units.angle != "deg" ==> r == Fail(AngleUnitUnsupported)
  {
    if units.length != "mm" then Fail(LengthUnitUnsupported)
    else if units.angle != "deg" then Fail(AngleUnitUnsupported)
    else Pass
  }

  /** At least two rows and five columns; rows are checked first. */
  function ValidateLayout(layout: Layout): (r: Outcome)
    ensures r.Pass? <==> layout.rows > 1 && layout.cols > 4
    ensures layout.rows <= 1 ==> r == Fail(TooFewRows)
    ensures layout.rows > 1 && layout.cols <= 4 ==> r == Fail(TooFewCols)
  {
    if layout.rows <= 1 then Fail(TooFewRows)
    else if layout.cols <= 4 then Fail(TooFewCols)
    else Pass
  }

  /** A switch type that `validateSwitchTypes` accepts: it names a base
      module, the base is registered and not nil, every override key is
      declared by the base, and the specialised module passes registration. */
  predicate TypeResolves(switchType: SwitchTypeConfig, modules: map<string, Option<SwitchModuleDefinition>>,
                         statNotExist: set<string>)
  {
    && switchType.definition != ""
    && Occupied(modules, switchType.definition)
    && switchType.extraArgs.Keys <= modules[switchType.definition].value.extraArgs.Keys
    && Registrable(modules[switchType.definition].value, statNotExist)
  }

  predicate AllTypesResolve(switchTypes: map<string, SwitchTypeConfig>,
                            modules: map<string, Option<SwitchModuleDefinition>>, statNotExist: set<string>)
  {
    forall name :: name in switchTypes ==> TypeResolves(switchTypes[name], modules, statNotExist)
  }

  /** The error `validateSwitchTypes` reports for the switch type `name`
      when that type does not resolve: the first failing check, in source
      order, decides it. Which undeclared override key is reported depends on
      map order, so only its membership is fixed. */
  predicate ExplainsFailure(e: Error, name: string, switchType: SwitchTypeConfig,
                            modules: map<string, Option<SwitchModuleDefinition>>, statNotExist: set<string>)
  {
    if switchType.definition == "" then
      e == DefinitionRequired(name)
    else if switchType.definition !in modules then
      e == GetModuleFailed(name, ModuleNotFound(switchType.definition))
    else if modules[switchType.definition].None? then
      e == ModuleNil(name)
    else
      var base := modules[switchType.definition].value;
      if !(switchType.extraArgs.Keys <= base.extraArgs.Keys) then
        && e.OverrideFailed? && e.switchType == name && e.cause.ExtraArgNotFound?
        && e.cause.key in switchType.extraArgs && e.cause.key !in base.extraArgs
      else if base.filename == "" || base.moduleName == "" then
        e == AddFailed(name, InvalidModule(name))
      else if ModulePath(base.filename) in statNotExist then
        e == AddFailed(name, ModuleFileNotFound(ModulePath(base.filename), name))
      else
        false
  }

  /** A switch type's base module specialised by its overrides. */
  function SpecializedType(switchType: SwitchTypeConfig, modules: map<string, Option<SwitchModuleDefinition>>)
    : SwitchModuleDefinition
    requires Occupied(modules, switchType.definition)
  {
    Specialize(modules[switchType.definition].value, switchType.extraArgs)
  }

  /** The switch-type repository: each declared type, under its own name,
      bound to its base module specialised by its overrides. */
  function ResolvedSwitchTypes(switchTypes: map<string, SwitchTypeConfig>,
                               modules: map<string, Option<SwitchModuleDefinition>>, statNotExist: set<string>)
    : (resolved: map<string, SwitchModuleDefinition>)
    requires AllTypesResolve(switchTypes, modules, statNotExist)
    ensures resolved.Keys == switchTypes.Keys
    ensures forall name :: name in resolved ==>
              resolved[name].extraArgs.Keys == modules[switchTypes[name].definition].value.extraArgs.Keys
  {
    map name | name in switchTypes :: SpecializedType(switchTypes[name], modules)
  }

  /** Resolves every declared switch type into a new repository. Whether it
      succeeds does not depend on the order the map is walked in; on failure
      the error names a switch type that does not resolve. */
  method ValidateSwitchTypes(switchTypes: map<string, SwitchTypeConfig>, repo: SwitchRepository,
                             statNotExist: set<string>)
    returns (r: Result<SwitchRepository>)
    ensures r.Ok? <==> AllTypesResolve(switchTypes, repo.modules, statNotExist)
    ensures r.Ok? ==> fresh(r.value)
    ensures r.Ok? ==>
              r.value.modules == map name | name in switchTypes ::
                                   Some(ResolvedSwitchTypes(switchTypes, repo.modules, statNotExist)[name])
    ensures r.Err? ==>
              && r.error.NamesSwitchType()
              && r.error.switchType in switchTypes
              && !TypeResolves(switchTypes[r.error.switchType], repo.modules, statNotExist)
              && ExplainsFailure(r.error, r.error.switchType, switchTypes[r.error.switchType], repo.modules, statNotExist)
  {
    var newRepo := new SwitchRepository();
    var pending := switchTypes.Keys;
    while pending != {}
      invariant pending <= switchTypes.Keys
      invariant fresh(newRepo)
      invariant newRepo.modules.Keys == switchTypes.Keys - pending
      invariant forall name :: name in newRepo.modules ==>
                  && TypeResolves(switchTypes[name], repo.modules, statNotExist)
                  && newRepo.modules[name] == Some(SpecializedType(switchTypes[name], repo.modules))
      decreases pending
    {
      var name :| name in pending;
      var switchType := switchTypes[name];
      if switchType.definition == "" {
        return Err(DefinitionRequired(name));
      }
      var found := repo.GetModule(switchType.definition);
      if found.Err? {
        return Err(GetModuleFailed(name, found.error));
      }
      if found.value == None {
        return Err(ModuleNil(name));
      }
      var newModule := OverrideModule(found.value.value, switchType.extraArgs);
      if newModule.Err? {
        return Err(OverrideFailed(name, newModule.error));
      }
      var err := newRepo.AddModule(name, newModule.value, statNotExist);
      if err.Fail? {
        return Err(AddFailed(name, err.error));
      }
      pending := pending - {name};
    }
    assert newRepo.modules == map name | name in switchTypes ::
                                 Some(ResolvedSwitchTypes(switchTypes, repo.modules, statNotExist)[name]);
    r := Ok(newRepo);
  }

  /** Copies the keywell geometry and resolves its key matrix. */
  method NewTemplateKeywell(keywell: Keywell, numRows: nat, numCols: nat) returns (k: TemplateKeywell)
    ensures k.tiltAngle == keywell.tiltAngle && k.verticalRadius == keywell.verticalRadius
    ensures k.horizontalRadius == keywell.horizontalRadius && k.centerOffset == keywell.centerOffset
    ensures k.innerLipSize == keywell.innerLipSize && k.outerLipSize == keywell.outerLipSize
    ensures k.indexFingerStartColumn == keywell.indexFingerStartColumn
    ensures IsResolvedMatrix(k.matrix, keywell.modifiers, numRows, numCols, keywell.indexFingerStartColumn)
  {
    var matrix := MatrixModifier(keywell.modifiers, numRows, numCols, keywell.indexFingerStartColumn);
    k := TemplateKeywell(keywell.tiltAngle, keywell.verticalRadius, keywell.horizontalRadius,
                         keywell.centerOffset, keywell.innerLipSize, keywell.outerLipSize,
                         keywell.indexFingerStartColumn, matrix);
  }

  /** What a successful assembly holds: the configuration's units, layout,
      geometry and render options unchanged, the resolved switch types, the
      keywell with its fully resolved matrix, and the thumb cluster. */
  predicate AssembledFrom(t: TemplateData, config: Config,
                          modules: map<string, Option<SwitchModuleDefinition>>, statNotExist: set<string>)
  {
    var kw := config.keywell;
    && AllTypesResolve(config.switchTypes, modules, statNotExist)
    && config.layout.rows >= 0 && config.layout.cols >= 0
    && t.units == config.units
    && t.layout == config.layout
    && t.switches == ResolvedSwitchTypes(config.switchTypes, modules, statNotExist)
    && t.geometry == config.geometry
    && t.render == config.render
    && t.keywell.tiltAngle == kw.tiltAngle && t.keywell.verticalRadius == kw.verticalRadius
    && t.keywell.horizontalRadius == kw.horizontalRadius && t.keywell.centerOffset == kw.centerOffset
    && t.keywell.innerLipSize == kw.innerLipSize && t.keywell.outerLipSize == kw.outerLipSize
    && t.keywell.indexFingerStartColumn == kw.indexFingerStartColumn
    && IsResolvedMatrix(t.keywell.matrix, kw.modifiers, config.layout.rows, config.layout.cols, kw.indexFingerStartColumn)
    && t.thumbCluster == TemplateThumbCluster(config.thumbCluster.originColumnIndex, config.thumbCluster.offset,
                                              config.thumbCluster.rotation, config.thumbCluster.keys)
  }

  /** Units, then layout, then switch types; the first failure is returned,
      wrapped with its stage, and no aggregate is produced. */
  method NewTemplateData(config: Config, repo: SwitchRepository, statNotExist: set<string>)
    returns (r: Result<TemplateData>)
    ensures ValidateUnits(config.units).Fail? ==>
              r == Err(UnitsValidation(ValidateUnits(config.units).error))
    ensures ValidateUnits(config.units).Pass? && ValidateLayout(config.layout).Fail? ==>
              r == Err(LayoutValidation(ValidateLayout(config.layout).error))
    ensures ValidateUnits(config.units).Pass? && ValidateLayout(config.layout).Pass?
              && !AllTypesResolve(config.switchTypes, repo.modules, statNotExist) ==>
              && r.Err? && r.error.SwitchTypesValidation?
              && r.error.cause.NamesSwitchType()
              && r.error.cause.switchType in config.switchTypes
              && !TypeResolves(config.switchTypes[r.error.cause.switchType], repo.modules, statNotExist)
              && ExplainsFailure(r.error.cause, r.error.cause.switchType,
                                 config.switchTypes[r.error.cause.switchType], repo.modules, statNotExist)
    ensures r.Ok? <==>
              && ValidateUnits(config.units).Pass?
              && ValidateLayout(config.layout).Pass?
              && AllTypesResolve(config.switchTypes, repo.modules, statNotExist)
    ensures r.Ok? ==> AssembledFrom(r.value, config, repo.modules, statNotExist)
  {
    var err := ValidateUnits(config.units);
    if err.Fail? {
      return Err(UnitsValidation(err.error));
    }
    err := ValidateLayout(config.layout);
    if err.Fail? {
      return Err(LayoutValidation(err.error));
    }
    var switchRepo := ValidateSwitchTypes(config.switchTypes, repo, statNotExist);
    if switchRepo.Err? {
      return Err(SwitchTypesValidation(switchRepo.error));
    }
    var modules := switchRepo.value.modules;
    var switches := map name | name in modules :: modules[name].value;
    assert switches == ResolvedSwitchTypes(config.switchTypes, repo.modules, statNotExist);
    var keywell := NewTemplateKeywell(config.keywell, config.layout.rows, config.layout.cols);
    var tc := config.thumbCluster;
    r := Ok(TemplateData(config.units, config.layout, switches, config.geometry, keywell, config.render,
                         TemplateThumbCluster(tc.originColumnIndex, tc.offset, tc.rotation, tc.keys)));
  }

  /** Three end-to-end assemblies, derived from the contracts above alone:
      a valid configuration whose single switch type names a registered
      module, a one-row layout, and a switch type naming an unknown module. */
  method AssemblyScenarios()
  {
    var zeroFinger := FingerModifier(ZeroOffset, 0.0);
    var fingers := FingerModifiers(zeroFinger, zeroFinger, zeroFinger, zeroFinger);
    var keywell := Keywell(0.0, 0.0, 0.0, ZeroOffset, 0.0, 0.0, 2, KeywellModifiers(fingers, map[], map[]));
    var thumbs := ThumbCluster(0, ZeroOffset, ZeroRotation, map[]);
    var geometry := GeometryConfig(0.0, 0.0, 0.0, 0.0, 0.0);
    var choc := SwitchModuleDefinition("choc.scad", "choc_switch", MinKeycapSize(0.0, 0.0, 0.0), map[]);

    var repo := new SwitchRepository();
    var added := repo.AddModule("choc", choc, {});
    assert added.Pass?;

    var types := map["low" := SwitchTypeConfig("choc", map[])];
    var config := Config(Units("mm", "deg"), Layout(5, 6), geometry, types, keywell, thumbs, Render(32, false));
    assert TypeResolves(types["low"], repo.modules, {});
    var r := NewTemplateData(config, repo, {});
    assert r.Ok? && r.value.layout == Layout(5, 6);
    assert r.value.switches.Keys == {"low"};

    r := NewTemplateData(config.(layout := Layout(1, 6)), repo, {});
    assert r == Err(LayoutValidation(TooFewRows));

    var unknown := map["low" := SwitchTypeConfig("mx", map[])];
    r := NewTemplateData(config.(switchTypes := unknown), repo, {});
    assert !TypeResolves(unknown["low"], repo.modules, {});
    assert r == Err(SwitchTypesValidation(GetModuleFailed("low", ModuleNotFound("mx"))));
  }
}
