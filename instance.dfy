/** Choosing which structure, screen, title and top bar a stacked screen shows. */
module Instance {
  import opened Wrappers
  import opened Values

  /** A screen component, by name. */
  type Component = string

  /** An application module: its key, name, main screen and teaser screen. */
  datatype Structure = Structure(key: string, name: Value, screen: Option<Component>, teaser: Option<Component>)

  /** The `title` attribute of a screen component: absent, a string, or a component. */
  datatype TitleAttr = NoTitle | TextTitle(text: string) | ComponentTitle(component: Component)

  /** An entry of a screen set: a component and its title attribute. */
  datatype ScreenDef = ScreenDef(component: Component, title: TitleAttr)

  /** The screens of a structure's active features, by screen key. */
  type ScreenSet = map<string, ScreenDef>

  /** One entry of the screen stack. */
  datatype ScreenInstance = ScreenInstance(
    structureKey: Option<string>,
    instanceKey: Option<string>,
    screenKey: Option<string>,
    params: Object)

  /** A property read off null while rendering. */
  datatype RenderError = TypeError(expression: string)

  /** A screen title: null, a value shown as text, or a title component given the params. */
  datatype Title = NullTitle | TitleValue(value: Value) | TitleElement(component: Component, params: Object)

  /** What one stacked screen renders. */
  datatype Rendered =
    | LoginView(params: Object)
    | NothingRendered
    | ScreenView(screen: Component, topBar: Option<TopBar>, params: Object)
    | Crashed(error: RenderError)

  /** The top bar over a screen: a title and the structure's name. */
  datatype TopBar = TopBar(title: Title, subtitle: Value)

  /** Position `i` holds the first registered structure whose key is `key`. */
  predicate FirstWithKey(structures: seq<Structure>, i: int, key: string) {
    && 0 <= i < |structures|
    && structures[i].key == key
    && forall j :: 0 <= j < i ==> structures[j].key != key
  }

  /** `getStructureForKey`: null for a falsy key; otherwise the first registered
      structure with that key, or nothing when none has it. */
  function GetStructureForKey(structures: seq<Structure>, key: Option<string>): (r: Option<Structure>)
    ensures !Present(key) ==> r.None?
    ensures Present(key) && r.None? ==> forall i :: 0 <= i < |structures| ==> structures[i].key != key.value
    ensures r.Some? ==> exists i :: FirstWithKey(structures, i, key.value) && structures[i] == r.value
    decreases |structures|
  {
    if !Present(key) then None
    else if |structures| == 0 then None
    else if structures[0].key == key.value then
      assert FirstWithKey(structures, 0, key.value);
      Some(structures[0])
    else
      var found := GetStructureForKey(structures[1..], key);
      if found.Some? then
        var i :| FirstWithKey(structures[1..], i, key.value) && structures[1..][i] == found.value;
        assert FirstWithKey(structures, i + 1, key.value);
        found
      else
        assert forall i :: 1 <= i < |structures| ==> structures[i] == structures[1..][i - 1];
        found
  }

  /** `getScreen`: the structure's main screen without a screen key, its teaser for
      the key 'teaser', and otherwise the screen set's entry for the key. */
  function GetScreen(screenSet: ScreenSet, structure: Option<Structure>, screenKey: Option<string>): (r: Result<Option<Component>, RenderError>)
    ensures !Present(screenKey) && structure.Some? ==> r == Success(structure.value.screen)
    ensures screenKey == Some("teaser") && structure.Some? ==> r == Success(structure.value.teaser)
    ensures Present(screenKey) && screenKey != Some("teaser") ==>
      r == Success(if screenKey.value in screenSet then Some(screenSet[screenKey.value].component) else None)
    ensures r.Failure? <==> structure.None? && (!Present(screenKey) || screenKey == Some("teaser"))
  {
    if !Present(screenKey) then
      if structure.None? then Failure(TypeError("structure.screen")) else Success(structure.value.screen)
    else if screenKey.value == "teaser" then
      if structure.None? then Failure(TypeError("structure.teaser")) else Success(structure.value.teaser)
    else if screenKey.value in screenSet then Success(Some(screenSet[screenKey.value].component))
    else Success(None)
  }

  /** `getScreenTitle`: with a screen key, the screen's own title (a string as it is,
      a component rendered with the params, none as null); without one, the instance's
      global `name` if set, else the structure's name. */
  function GetScreenTitle(screenSet: ScreenSet, structure: Option<Structure>, screenKey: Option<string>,
                          params: Object, globalName: Value): (r: Result<Title, RenderError>)
    ensures Present(screenKey) ==> r.Success?
    ensures Present(screenKey) && screenKey.value in screenSet && screenSet[screenKey.value].title.TextTitle? ==>
      r == Success(TitleValue(Str(screenSet[screenKey.value].title.text)))
    ensures Present(screenKey) && (screenKey.value !in screenSet || screenSet[screenKey.value].title.NoTitle?) ==>
      r == Success(NullTitle)
    ensures Present(screenKey) && screenKey.value in screenSet && screenSet[screenKey.value].title.ComponentTitle? ==>
      r == Success(TitleElement(screenSet[screenKey.value].title.component, params))
    ensures !Present(screenKey) && Truthy(globalName) ==> r == Success(TitleValue(globalName))
    ensures !Present(screenKey) && !Truthy(globalName) && structure.Some? ==> r == Success(TitleValue(structure.value.name))
    ensures r.Failure? <==> !Present(screenKey) && !Truthy(globalName) && structure.None?
  {
    if Present(screenKey) then
      if screenKey.value !in screenSet then Success(NullTitle)
      else
        match screenSet[screenKey.value].title
        case TextTitle(t) => Success(TitleValue(Str(t)))
        case ComponentTitle(c) => Success(TitleElement(c, params))
        case NoTitle => Success(NullTitle)
    else if Truthy(globalName) then Success(TitleValue(globalName))
    else if structure.None? then Failure(TypeError("structure.name"))
    else Success(TitleValue(structure.value.name))
  }

  /** The login check of `StackedScreen`. */
  predicate IsLogin(inst: ScreenInstance) {
    inst.structureKey == Some("login") || inst.instanceKey == Some("login") || inst.screenKey == Some("login")
  }

  /** `showTopBar`. */
  predicate ShowTopBar(inst: ScreenInstance) {
    inst.screenKey != Some("teaser")
  }

  /** `StackedScreen`: the login screen whenever a key is 'login'; otherwise the
      resolved screen under a top bar unless it is a teaser, or nothing when no
      screen resolves. */
  function StackedScreen(screenSet: ScreenSet, inst: ScreenInstance, structures: seq<Structure>, globalName: Value): (r: Rendered)
    ensures IsLogin(inst) ==> r == LoginView(inst.params)
    ensures r.LoginView? <==> IsLogin(inst)
    ensures
      var structure := GetStructureForKey(structures, inst.structureKey);
      var screen := GetScreen(screenSet, structure, inst.screenKey);
      && (r.NothingRendered? <==> !IsLogin(inst) && screen == Success(None))
      // a resolved screen is rendered unless the top bar must read a missing structure's name
      && (r.ScreenView? <==>
            !IsLogin(inst) && screen.Success? && screen.value.Some? && (ShowTopBar(inst) ==> structure.Some?))
      && (r.ScreenView? ==> screen == Success(Some(r.screen)) && r.params == inst.params)
      && (r.ScreenView? ==> (r.topBar.Some? <==> ShowTopBar(inst)))
      && (r.Crashed? <==>
            !IsLogin(inst) && (screen.Failure? || (screen.value.Some? && ShowTopBar(inst) && structure.None?)))
      && (!IsLogin(inst) && screen.Failure? ==> r == Crashed(screen.error))
    ensures
      var structure := GetStructureForKey(structures, inst.structureKey);
      var title := GetScreenTitle(screenSet, structure, inst.screenKey, inst.params, globalName);
      r.ScreenView? && r.topBar.Some? ==>
        structure.Some? && title.Success? && r.topBar.value == TopBar(title.value, structure.value.name)
  {
    if IsLogin(inst) then LoginView(inst.params)
    else
      var structure := GetStructureForKey(structures, inst.structureKey);
      match GetScreen(screenSet, structure, inst.screenKey)
      case Failure(e) => Crashed(e)
      case Success(screen) =>
        match GetScreenTitle(screenSet, structure, inst.screenKey, inst.params, globalName)
        case Failure(e) => Crashed(e)
        case Success(title) =>
          if screen.None? then NothingRendered
          else if !ShowTopBar(inst) then ScreenView(screen.value, None, inst.params)
          else if structure.None? then Crashed(TypeError("structure.name"))
          else ScreenView(screen.value, Some(TopBar(title, structure.value.name)), inst.params)
  }

  /** The login check wins whatever the screen set, the structures and the name. */
  lemma LoginRegardlessOfScreens(inst: ScreenInstance, structures: seq<Structure>, globalName: Value,
                                 screenSet: ScreenSet, otherSet: ScreenSet)
    requires IsLogin(inst)
    ensures StackedScreen(screenSet, inst, structures, globalName) == StackedScreen(otherSet, inst, structures, globalName)
  {
  }

  /** `useFirebaseData(...) || []`: the instance's active features, the empty list
      when none are stored. */
  function ActiveFeatures(stored: Option<seq<string>>): (features: seq<string>)
    ensures stored.None? ==> features == []
    ensures stored.Some? ==> features == stored.value
  {
    if stored.Some? then stored.value else []
  }
}
