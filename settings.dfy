/**
 * The settings overlay: a menu and three sub-views (API key input, model
 * list, maximum-iterations input). Key handling is a pure transition on
 * the overlay's state; the two text inputs are their current values and
 * focus, and what an input does with a key it is given is the parameter
 * `edit`.
 */
module Settings {

  import opened Text

  datatype View = Menu | APIKey | Models | MaxIter

  /** How a key press is classified besides its name */
  datatype KeyKind = Runes | Backspace | Delete | OtherKey

  /** A key press: its name as the terminal library spells it, and its kind */
  datatype Key = Key(name: string, kind: KeyKind)

  datatype State = State(
    view: View,
    apiInput: string,
    apiFocused: bool,
    maxIterInput: string,
    maxIterFocused: bool,
    models: seq<string>,
    modelCursor: int,
    modelsErr: Option<string>,
    loadingModel: bool,
    feedback: string,
    feedbackErr: bool)

  /** The state after a key press, and whether the overlay closes */
  datatype Outcome = Outcome(state: State, close: bool)

  /** NewSettings: the menu, empty inputs, no models */
  function NewSettings(): (s: State)
    ensures s.view == Menu && s.apiInput == "" && s.maxIterInput == "" && s.models == []
    ensures s.modelCursor == 0 && s.modelsErr.None? && !s.loadingModel && s.feedback == ""
  {
    State(Menu, "", false, "", false, [], 0, None, false, "", false)
  }

  /** The model cursor is never negative, and stays inside a non-empty list */
  ghost predicate CursorOk(s: State)
  {
    0 <= s.modelCursor && (s.modelCursor == 0 || s.modelCursor < |s.models|)
  }

  /**
   * What a text input does with a key: a focused input hands it to `edit`,
   * a blurred one ignores it and keeps its value.
   */
  function TextInput(value: string, focused: bool, key: Key, edit: (string, Key) -> string): (r: string)
    ensures !focused ==> r == value
    ensures focused ==> r == edit(value, key)
  {
    if focused then edit(value, key) else value
  }

  /** A key press, dispatched on the active view */
  function Update(s: State, key: Key, edit: (string, Key) -> string): (o: Outcome)
    // only the menu closes the overlay
    ensures o.close ==> s.view == Menu
  {
    match s.view
    case Menu => UpdateMenu(s, key)
    case APIKey => UpdateAPIKey(s, key, edit)
    case Models => UpdateModels(s, key)
    case MaxIter => UpdateMaxIter(s, key, edit)
  }

  function UpdateMenu(s: State, key: Key): (o: Outcome)
    requires s.view == Menu
    ensures o.close <==> key.name in ["esc", "ctrl+k"]
    ensures o.close ==> o.state == s
    // the model list is entered with a fresh cursor, no list, no error, loading
    ensures key.name in ["2", "m", "M"] ==>
      o.state == s.(view := Models, feedback := "", modelCursor := 0, models := [], modelsErr := None, loadingModel := true)
    ensures key.name in ["1", "a", "A"] ==>
      o.state == s.(view := APIKey, feedback := "", apiInput := "", apiFocused := true)
    ensures key.name in ["3", "i", "I"] ==>
      o.state == s.(view := MaxIter, feedback := "", maxIterInput := "", maxIterFocused := true)
    ensures key.name !in ["esc", "ctrl+k", "1", "a", "A", "2", "m", "M", "3", "i", "I"] ==> o == Outcome(s, false)
  {
    var k := key.name;
    if k == "esc" || k == "ctrl+k" then Outcome(s, true)
    else if k == "1" || k == "a" || k == "A" then
      Outcome(s.(view := APIKey, feedback := "", apiInput := "", apiFocused := true), false)
    else if k == "2" || k == "m" || k == "M" then
      Outcome(s.(view := Models, feedback := "", modelCursor := 0, models := [], modelsErr := None, loadingModel := true), false)
    else if k == "3" || k == "i" || k == "I" then
      Outcome(s.(view := MaxIter, feedback := "", maxIterInput := "", maxIterFocused := true), false)
    else Outcome(s, false)
  }

  function UpdateAPIKey(s: State, key: Key, edit: (string, Key) -> string): (o: Outcome)
    requires s.view == APIKey
    ensures !o.close
    // the model list and its cursor are untouched
    ensures o.state.models == s.models && o.state.modelCursor == s.modelCursor
    ensures key.name == "esc" ==> o.state == s.(view := Menu, apiFocused := false)
    // an empty (after trimming) key is refused with feedback; any other is accepted
    ensures key.name == "enter" && TrimSpace(s.apiInput) == "" ==>
      o.state == s.(feedback := "API key cannot be empty", feedbackErr := true)
    ensures key.name == "enter" && TrimSpace(s.apiInput) != "" ==> o.state == s.(apiFocused := false)
    // every other key goes to the input, which changes only while it is focused
    ensures key.name != "esc" && key.name != "enter" ==>
      o.state == s.(apiInput := TextInput(s.apiInput, s.apiFocused, key, edit))
    ensures key.name != "esc" && key.name != "enter" && !s.apiFocused ==> o.state == s
  {
    if key.name == "esc" then Outcome(s.(view := Menu, apiFocused := false), false)
    else if key.name == "enter" then
      if TrimSpace(s.apiInput) == "" then
        Outcome(s.(feedback := "API key cannot be empty", feedbackErr := true), false)
      else Outcome(s.(apiFocused := false), false)
    else Outcome(s.(apiInput := TextInput(s.apiInput, s.apiFocused, key, edit)), false)
  }

  function UpdateModels(s: State, key: Key): (o: Outcome)
    requires s.view == Models
    ensures !o.close
    // while loading, only esc does anything: back to the menu, no longer loading
    ensures s.loadingModel ==>
      o.state == if key.name == "esc" then s.(view := Menu, loadingModel := false) else s
    // after a failed fetch, only esc does anything: back to the menu, error cleared
    ensures !s.loadingModel && s.modelsErr.Some? ==>
      o.state == if key.name == "esc" then s.(view := Menu, modelsErr := None) else s
    // otherwise only the view and the cursor change
    ensures !s.loadingModel && s.modelsErr.None? ==>
      o.state == s.(view := o.state.view, modelCursor := o.state.modelCursor)
    // esc goes back to the menu
    ensures !s.loadingModel && s.modelsErr.None? && key.name == "esc" ==> o.state == s.(view := Menu)
    // up and down move the cursor within the list and stay in the list
    ensures !s.loadingModel && s.modelsErr.None? && key.name in ["up", "k"] ==>
      o.state == s.(modelCursor := if s.modelCursor > 0 then s.modelCursor - 1 else s.modelCursor)
    ensures !s.loadingModel && s.modelsErr.None? && key.name in ["down", "j"] ==>
      o.state == s.(modelCursor := if s.modelCursor < |s.models| - 1 then s.modelCursor + 1 else s.modelCursor)
    // every other key, enter included, leaves the overlay as it is: saving the choice is the caller's
    ensures !s.loadingModel && s.modelsErr.None? && key.name !in ["esc", "up", "k", "down", "j"] ==> o.state == s
  {
    var k := key.name;
    if s.loadingModel then
      if k == "esc" then Outcome(s.(view := Menu, loadingModel := false), false) else Outcome(s, false)
    else if s.modelsErr.Some? then
      if k == "esc" then Outcome(s.(view := Menu, modelsErr := None), false) else Outcome(s, false)
    else if k == "esc" then Outcome(s.(view := Menu), false)
    else if k == "up" || k == "k" then
      Outcome(if s.modelCursor > 0 then s.(modelCursor := s.modelCursor - 1) else s, false)
    else if k == "down" || k == "j" then
      Outcome(if s.modelCursor < |s.models| - 1 then s.(modelCursor := s.modelCursor + 1) else s, false)
    else Outcome(s, false)
  }

  /** A single decimal digit */
  predicate IsDigitKey(key: Key)
  {
    |key.name| == 1 && '0' <= key.name[0] <= '9'
  }

  function UpdateMaxIter(s: State, key: Key, edit: (string, Key) -> string): (o: Outcome)
    requires s.view == MaxIter
    ensures !o.close
    // the model list and its cursor are untouched
    ensures o.state.models == s.models && o.state.modelCursor == s.modelCursor
    ensures key.name == "esc" ==> o.state == s.(view := Menu, maxIterFocused := false)
    ensures key.name == "enter" && TrimSpace(s.maxIterInput) == "" ==>
      o.state == s.(feedback := "Value cannot be empty", feedbackErr := true)
    ensures key.name == "enter" && TrimSpace(s.maxIterInput) != "" && MaxIterValue(s) == 0 ==>
      o.state == s.(feedback := "Enter a positive integer", feedbackErr := true)
    // Enter accepts exactly the values MaxIterValue reads, and refuses the rest with an error
    ensures key.name == "enter" && MaxIterValue(s) >= 1 ==> o.state == s.(maxIterFocused := false)
    ensures key.name == "enter" && MaxIterValue(s) == 0 ==> o.state.feedbackErr && o.state.feedback != ""
    // the input is given only digits, backspace and delete, and changes only while it is focused
    ensures key.name != "esc" && key.name != "enter" ==>
      o.state == if IsDigitKey(key) || key.kind in {Backspace, Delete}
                 then s.(maxIterInput := TextInput(s.maxIterInput, s.maxIterFocused, key, edit)) else s
    ensures key.name != "esc" && key.name != "enter" && !s.maxIterFocused ==> o.state == s
  {
    if key.name == "esc" then Outcome(s.(view := Menu, maxIterFocused := false), false)
    else if key.name == "enter" then
      var val := TrimSpace(s.maxIterInput);
      if val == "" then Outcome(s.(feedback := "Value cannot be empty", feedbackErr := true), false)
      else
        var n := Atoi(val);
        if n.None? || n.value < 1 then Outcome(s.(feedback := "Enter a positive integer", feedbackErr := true), false)
        else Outcome(s.(maxIterFocused := false), false)
    else if IsDigitKey(key) then Outcome(s.(maxIterInput := TextInput(s.maxIterInput, s.maxIterFocused, key, edit)), false)
    else if key.kind == Backspace || key.kind == Delete then
      Outcome(s.(maxIterInput := TextInput(s.maxIterInput, s.maxIterFocused, key, edit)), false)
    else Outcome(s, false)
  }

  /** The trimmed input as a positive integer, or 0 */
  function MaxIterValue(s: State): (n: int)
    ensures n >= 0
    ensures n >= 1 <==> (Atoi(TrimSpace(s.maxIterInput)).Some? && Atoi(TrimSpace(s.maxIterInput)).value >= 1)
    ensures n >= 1 ==> n == Atoi(TrimSpace(s.maxIterInput)).value
  {
    var n := Atoi(TrimSpace(s.maxIterInput));
    if n.None? || n.value < 1 then 0 else n.value
  }

  /** The fetched model list arrives: loading ends; an error is recorded, a list replaces the old one */
  function HandleModelsLoaded(s: State, models: seq<string>, err: Option<string>): (r: State)
    ensures !r.loadingModel
    ensures err.Some? ==> r == s.(loadingModel := false, modelsErr := err)
    ensures err.None? ==> r == s.(loadingModel := false, models := models, modelCursor := 0)
  {
    if err.Some? then s.(loadingModel := false, modelsErr := err)
    else s.(loadingModel := false, models := models, modelCursor := 0)
  }

  /** The highlighted model, or "" when there is none */
  function SelectedModel(s: State): (m: string)
    requires s.modelCursor >= 0
    ensures s.modelCursor < |s.models| ==> m == s.models[s.modelCursor]
    ensures s.modelCursor >= |s.models| ==> m == ""
  {
    if |s.models| > 0 && s.modelCursor < |s.models| then s.models[s.modelCursor] else ""
  }

  /** Once Enter accepts the API key the input is blurred: further typing leaves the key as accepted */
  lemma AcceptedKeyStays(s: State, enter: Key, key: Key, edit: (string, Key) -> string)
    requires s.view == APIKey && enter.name == "enter" && TrimSpace(s.apiInput) != ""
    requires key.name != "esc" && key.name != "enter"
    ensures var t := UpdateAPIKey(s, enter, edit).state;
      t.view == APIKey && UpdateAPIKey(t, key, edit).state.apiInput == s.apiInput
  {
  }

  /** Once Enter accepts the iteration limit the input is blurred: further typing leaves the value as accepted */
  lemma AcceptedMaxIterStays(s: State, enter: Key, key: Key, edit: (string, Key) -> string)
    requires s.view == MaxIter && enter.name == "enter" && MaxIterValue(s) >= 1
    requires key.name != "esc" && key.name != "enter"
    ensures var t := UpdateMaxIter(s, enter, edit).state;
      t.view == MaxIter && MaxIterValue(UpdateMaxIter(t, key, edit).state) == MaxIterValue(s)
  {
  }

  /** Every transition keeps the cursor valid, so SelectedModel never reads out of range */
  lemma CursorStaysValid(s: State, key: Key, edit: (string, Key) -> string)
    requires CursorOk(s)
    ensures CursorOk(Update(s, key, edit).state)
  {
    match s.view
    case Menu => MenuKeepsCursor(s, key);
    case APIKey =>
    case Models => ModelsKeepsCursor(s, key);
    case MaxIter =>
  }

  lemma MenuKeepsCursor(s: State, key: Key)
    requires s.view == Menu && CursorOk(s)
    ensures CursorOk(UpdateMenu(s, key).state)
  {
    var o := UpdateMenu(s, key);
    assert (o.state.models == s.models && o.state.modelCursor == s.modelCursor) || o.state.modelCursor == 0;
  }

  lemma ModelsKeepsCursor(s: State, key: Key)
    requires s.view == Models && CursorOk(s)
    ensures CursorOk(UpdateModels(s, key).state)
  {
    var o := UpdateModels(s, key);
    assert o.state.models == s.models;
  }

  /** A loaded list keeps the cursor valid too */
  lemma LoadKeepsCursor(s: State, models: seq<string>, err: Option<string>)
    requires CursorOk(s)
    ensures CursorOk(HandleModelsLoaded(s, models, err))
  {
  }

  /** The API key as the menu shows it: never more than its first 3 and last 4 characters */
  function MaskKey(key: string): (r: string)
    ensures key == "" ==> r == "(not set)"
    ensures 0 < |key| <= 8 ==> r == "****"
    ensures |key| > 8 ==> |r| == 10 && r[..3] == key[..3] && r[3..6] == "..." && r[6..] == key[|key| - 4..]
  {
    if key == "" then "(not set)"
    else if |key| > 8 then key[..3] + "..." + key[|key| - 4..]
    else "****"
  }

  const MaxVisibleModels := 10

  /** The slice of the model list shown around the cursor */
  function ModelWindow(cursor: int, count: nat): (r: (nat, nat))
    requires 0 <= cursor && count > 0
    ensures r.0 <= r.1 <= count
    ensures r.1 - r.0 == if count < MaxVisibleModels then count else MaxVisibleModels
    // a valid cursor is always inside the window
    ensures cursor < count ==> r.0 <= cursor < r.1
  {
    var maxVisible := if MaxVisibleModels > count then count else MaxVisibleModels;
    var start := if cursor >= maxVisible then cursor - maxVisible + 1 else 0;
    var end := start + maxVisible;
    if end > count then
      (if count - maxVisible < 0 then 0 else count - maxVisible, count)
    else (start, end)
  }
}
