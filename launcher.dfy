/**
 * The settings store of the launcher in neo/sys/linux/launcher/launcher.cpp:
 * a list of named, typed values updated in place by the set_setting_*
 * family, its count-prefixed save file, the filtering of the launcher's own
 * command line around fs_basepath, and the engine command line built from
 * the settings when the launcher closes.
 *
 * The list of SettingsValue pointers is a sequence of values; the save file
 * is a sequence of typed items as idFile writes them; a number that get_num
 * turns into text stays a number in the argument vector.
 */
module Launcher {
  import opened Wrappers

  // --------------------------------------------------------------- values

  /** SettingsValue::Type, whose codes 0 to 4 are written to the save file. */
  datatype SettingType = NoType | OptionType | BooleanType | IntegerType | StringType

  function TypeCode(t: SettingType): (c: int)
    ensures 0 <= c <= 4 && (c == 0 <==> t == NoType)
  {
    match t
    case NoType => 0
    case OptionType => 1
    case BooleanType => 2
    case IntegerType => 3
    case StringType => 4
  }

  /** A value together with the type a setter gives it. */
  datatype Value = OptionValue(on: bool) | BoolValue(b: bool) | IntValue(i: int) | StringValue(s: string)

  /** SettingsValue: str_value is modelled as a string, empty until a string is set. */
  datatype Setting = Setting(uid: int, ty: SettingType, name: string, intValue: int, boolValue: bool,
                             strValue: string, description: string, save: bool)

  /** The settings list and SettingsValue::last_uid. */
  datatype Store = Store(settings: seq<Setting>, lastUid: int)

  const INITIAL_LAST_UID := -1

  /** A fresh SettingsValue with the member initialisers of the struct. */
  function NewSetting(uid: int): Setting
  {
    Setting(uid, NoType, "", -1, false, "", "", true)
  }

  /** The value a setting holds under its type; NoType holds none. */
  function ValueOf(e: Setting): Option<Value>
  {
    match e.ty
    case NoType => None
    case OptionType => Some(OptionValue(e.boolValue))
    case BooleanType => Some(BoolValue(e.boolValue))
    case IntegerType => Some(IntValue(e.intValue))
    case StringType => Some(StringValue(e.strValue))
  }

  /** What one setter call writes into an entry: type, name, value, and the description unless it is empty. */
  function Assign(e: Setting, name: string, v: Value, description: string): (r: Setting)
    ensures ValueOf(r) == Some(v) && r.name == name
    ensures r.uid == e.uid && r.save == e.save
    ensures r.description == if description == "" then e.description else description
  {
    var typed := match v
      case OptionValue(b) => e.(ty := OptionType, boolValue := b)
      case BoolValue(b) => e.(ty := BooleanType, boolValue := b)
      case IntValue(i) => e.(ty := IntegerType, intValue := i)
      case StringValue(s) => e.(ty := StringType, strValue := s);
    typed.(name := name, description := if description == "" then e.description else description)
  }

  // --------------------------------------------------------- lookup

  /** The std::find_if search by name: the first entry with that name. */
  function FindIndex(settings: seq<Setting>, name: string): (r: Option<nat>)
    ensures r.Some? ==> r.value < |settings| && settings[r.value].name == name
                        && forall j :: 0 <= j < r.value ==> settings[j].name != name
    ensures r.None? <==> forall j :: 0 <= j < |settings| ==> settings[j].name != name
  {
    if |settings| == 0 then None
    else if settings[0].name == name then Some(0)
    else match FindIndex(settings[1..], name)
      case Some(k) => Some(k + 1)
      case None => None
  }

  /** get_setting: the entry with that name, None for a null pointer. */
  function Lookup(settings: seq<Setting>, name: string): Option<Setting>
  {
    match FindIndex(settings, name)
    case Some(k) => Some(settings[k])
    case None => None
  }

  function ValueAt(settings: seq<Setting>, name: string): Option<Value>
  {
    match Lookup(settings, name)
    case Some(e) => ValueOf(e)
    case None => None
  }

  predicate NamesUnique(settings: seq<Setting>)
  {
    forall i, j :: 0 <= i < j < |settings| ==> settings[i].name != settings[j].name
  }

  /** Uids grow along the list and none exceeds last_uid. */
  predicate UidsOrdered(st: Store)
  {
    (forall i, j :: 0 <= i < j < |st.settings| ==> st.settings[i].uid < st.settings[j].uid)
    && (forall i :: 0 <= i < |st.settings| ==> st.settings[i].uid <= st.lastUid)
  }

  // --------------------------------------------------------- setters

  /**
   * set_setting_option, set_setting_bool, set_setting_int and
   * set_setting_string: the entry with the name is updated in place, or a
   * new SettingsValue with the next uid is appended.
   */
  function Upsert(st: Store, name: string, v: Value, description: string): Store
  {
    match FindIndex(st.settings, name)
    case Some(k) => Store(st.settings[k := Assign(st.settings[k], name, v, description)], st.lastUid)
    case None => Store(st.settings + [Assign(NewSetting(st.lastUid + 1), name, v, description)], st.lastUid + 1)
  }

  /** After a setter, get_setting finds the entry with the new type and value; its description and save flag follow the setter's rules. */
  lemma UpsertThenLookup(st: Store, name: string, v: Value, description: string)
    ensures var r := Lookup(Upsert(st, name, v, description).settings, name);
            r.Some? && r.value.name == name && ValueOf(r.value) == Some(v)
            && (Lookup(st.settings, name).Some? ==>
                  r.value.save == Lookup(st.settings, name).value.save
                  && r.value.uid == Lookup(st.settings, name).value.uid
                  && r.value.description == (if description == "" then Lookup(st.settings, name).value.description else description))
            && (Lookup(st.settings, name).None? ==>
                  r.value.save && r.value.uid == st.lastUid + 1 && r.value.description == description)
  {
    var s2 := Upsert(st, name, v, description).settings;
    match FindIndex(st.settings, name)
    case Some(k) =>
      assert s2[k].name == name;
      assert FindIndex(s2, name) == Some(k) by {
        FindIndexOfFirst(s2, name, k);
      }
    case None =>
      assert s2[|st.settings|].name == name;
      assert FindIndex(s2, name) == Some(|st.settings|) by {
        FindIndexOfFirst(s2, name, |st.settings|);
      }
  }

  /** FindIndex returns the first index holding the name. */
  lemma FindIndexOfFirst(settings: seq<Setting>, name: string, k: nat)
    requires k < |settings| && settings[k].name == name
    requires forall j :: 0 <= j < k ==> settings[j].name != name
    ensures FindIndex(settings, name) == Some(k)
  {
  }

  /** A setter leaves the entry of every other name as it was, present or absent. */
  lemma UpsertKeepsOthers(st: Store, name: string, v: Value, description: string, other: string)
    requires other != name
    ensures Lookup(Upsert(st, name, v, description).settings, other) == Lookup(st.settings, other)
  {
    var s2 := Upsert(st, name, v, description).settings;
    match FindIndex(st.settings, other)
    case Some(k) =>
      assert s2[k] == st.settings[k];
      FindIndexOfFirst(s2, other, k);
    case None =>
  }

  /** A setter appends exactly one entry when the name is new and none otherwise; no other entry changes, and names stay unique. */
  lemma UpsertShape(st: Store, name: string, v: Value, description: string)
    requires NamesUnique(st.settings)
    ensures var s2 := Upsert(st, name, v, description).settings;
            |s2| == |st.settings| + (if Lookup(st.settings, name).None? then 1 else 0)
            && (forall i :: 0 <= i < |st.settings| && st.settings[i].name != name ==> s2[i] == st.settings[i])
            && NamesUnique(s2)
  {
  }

  /** Each new SettingsValue has a uid above every earlier one. */
  lemma UpsertKeepsUidsOrdered(st: Store, name: string, v: Value, description: string)
    requires UidsOrdered(st)
    ensures UidsOrdered(Upsert(st, name, v, description))
    ensures Upsert(st, name, v, description).lastUid >= st.lastUid
  {
  }

  /** get_setting_edit(name)->save = false, as default_settings does for fs_game. */
  function ClearSave(st: Store, name: string): Store
  {
    match FindIndex(st.settings, name)
    case Some(k) => st.(settings := st.settings[k := st.settings[k].(save := false)])
    case None => st
  }

  /** get_setting_edit(name)->save = false changes only the save flag of that entry. */
  lemma ClearSaveThenLookup(st: Store, name: string)
    requires Lookup(st.settings, name).Some?
    ensures Lookup(ClearSave(st, name).settings, name) == Some(Lookup(st.settings, name).value.(save := false))
  {
    var k := FindIndex(st.settings, name).value;
    FindIndexOfFirst(ClearSave(st, name).settings, name, k);
  }

  // --------------------------------------------------------- defaults

  /**
   * One call of default_settings after the fs_game entry; the description
   * texts some calls pass are display text and are not modelled.
   */
  datatype Default = Default(name: string, value: Value)

  /** (int)((float)n * 0.5f): the half, truncated toward zero. */
  function HalfTruncated(n: int): (r: int)
    ensures 0 <= n ==> 2 * r <= n < 2 * r + 2
    ensures n < 0 ==> 2 * r - 2 < n <= 2 * r
  {
    if n >= 0 then n / 2 else -((-n) / 2)
  }

  /**
   * The settings default_settings gives after fs_game, in order. The
   * framebuffer size is half the native size, rotated when the screen is
   * not natively landscape, and only in the Sailfish OS build.
   */
  function DefaultEntries(nativeWidth: int, nativeHeight: int, nativeLandscape: bool, sailfish: bool): seq<Default>
  {
    [Default("r_mode", IntValue(-1)),
     Default("r_customWidth", IntValue(nativeWidth)),
     Default("r_customHeight", IntValue(nativeHeight))]
    + (if !sailfish then []
       else if nativeLandscape then
         [Default("r_framebufferWidth", IntValue(HalfTruncated(nativeWidth))),
          Default("r_framebufferHeight", IntValue(HalfTruncated(nativeHeight)))]
       else
         [Default("r_framebufferWidth", IntValue(HalfTruncated(nativeHeight))),
          Default("r_framebufferHeight", IntValue(HalfTruncated(nativeWidth)))])
    + [Default("+disconnect", OptionValue(true)),
       Default("r_multiSamples", IntValue(0)),
       Default("r_shadows", BoolValue(true)),
       Default("r_skipMegaTexture", BoolValue(false)),
       Default("r_skipBlendLights", BoolValue(false)),
       Default("r_skipFogLights", BoolValue(false)),
       Default("r_skipDeforms", BoolValue(false)),
       Default("r_skipCopyTexture", BoolValue(false)),
       Default("r_skipOverlays", BoolValue(false)),
       Default("r_skipSpecular", BoolValue(false)),
       Default("r_skipTranslucent", BoolValue(false)),
       Default("r_skipBump", BoolValue(false)),
       Default("r_skipROQ", BoolValue(false)),
       Default("r_skipPostProcess", BoolValue(false)),
       Default("r_skipSubviews", BoolValue(false)),
       Default("r_skipNewAmbient", BoolValue(false)),
       Default("r_skipParticles", BoolValue(false)),
       Default("r_skipDynamicTextures", BoolValue(false)),
       Default("r_multithread", BoolValue(true)),
       Default("r_useETC1", BoolValue(false))]
  }

  function ApplyDefaults(st: Store, defaults: seq<Default>): Store
    decreases |defaults|
  {
    if |defaults| == 0 then st
    else ApplyDefaults(Upsert(st, defaults[0].name, defaults[0].value, ""), defaults[1..])
  }

  /** default_settings: fs_game is set to the empty string and excluded from saving, then the rest are set. */
  function DefaultSettingsOf(st: Store, nativeWidth: int, nativeHeight: int, nativeLandscape: bool, sailfish: bool): Store
  {
    ApplyDefaults(ClearSave(Upsert(st, "fs_game", StringValue(""), ""), "fs_game"),
                  DefaultEntries(nativeWidth, nativeHeight, nativeLandscape, sailfish))
  }

  predicate NotSetBy(defaults: seq<Default>, name: string)
  {
    forall i :: 0 <= i < |defaults| ==> defaults[i].name != name
  }

  /** Setting names other than `name` leave its entry alone. */
  lemma {:induction false} ApplyDefaultsKeeps(st: Store, defaults: seq<Default>, name: string)
    requires NotSetBy(defaults, name)
    ensures Lookup(ApplyDefaults(st, defaults).settings, name) == Lookup(st.settings, name)
    decreases |defaults|
  {
    if |defaults| > 0 {
      UpsertKeepsOthers(st, defaults[0].name, defaults[0].value, "", name);
      ApplyDefaultsKeeps(Upsert(st, defaults[0].name, defaults[0].value, ""), defaults[1..], name);
    }
  }

  /** Once present, an entry stays present through further setters. */
  lemma {:induction false} ApplyDefaultsPresent(st: Store, defaults: seq<Default>, name: string)
    requires Lookup(st.settings, name).Some? || exists i :: 0 <= i < |defaults| && defaults[i].name == name
    ensures Lookup(ApplyDefaults(st, defaults).settings, name).Some?
    decreases |defaults|
  {
    if |defaults| > 0 {
      var st1 := Upsert(st, defaults[0].name, defaults[0].value, "");
      if defaults[0].name == name {
        UpsertThenLookup(st, name, defaults[0].value, "");
      } else {
        UpsertKeepsOthers(st, defaults[0].name, defaults[0].value, "", name);
        if Lookup(st.settings, name).None? {
          var i :| 0 <= i < |defaults| && defaults[i].name == name;
          assert defaults[1..][i - 1].name == name;
        }
      }
      ApplyDefaultsPresent(st1, defaults[1..], name);
    }
  }

  lemma DefaultNamesAreNotFsGame(nativeWidth: int, nativeHeight: int, nativeLandscape: bool, sailfish: bool)
    ensures var d := DefaultEntries(nativeWidth, nativeHeight, nativeLandscape, sailfish);
            forall i :: 0 <= i < |d| ==> d[i].name != "fs_game"
  {
    var d := DefaultEntries(nativeWidth, nativeHeight, nativeLandscape, sailfish);
    forall i | 0 <= i < |d| ensures d[i].name != "fs_game" {
      assert d[i].name[0] == 'r' || d[i].name[0] == '+';
    }
  }

  /** fs_game set to the empty string and marked unsaved survives any setters of other names. */
  lemma FsGameUnsavedThrough(st: Store, d: seq<Default>)
    requires NotSetBy(d, "fs_game")
    ensures Lookup(Upsert(st, "fs_game", StringValue(""), "").settings, "fs_game").Some?
    ensures Lookup(ApplyDefaults(ClearSave(Upsert(st, "fs_game", StringValue(""), ""), "fs_game"), d).settings, "fs_game")
         == Some(Lookup(Upsert(st, "fs_game", StringValue(""), "").settings, "fs_game").value.(save := false))
    ensures ValueOf(Lookup(Upsert(st, "fs_game", StringValue(""), "").settings, "fs_game").value) == Some(StringValue(""))
  {
    var st1 := Upsert(st, "fs_game", StringValue(""), "");
    UpsertThenLookup(st, "fs_game", StringValue(""), "");
    ClearSaveThenLookup(st1, "fs_game");
    ApplyDefaultsKeeps(ClearSave(st1, "fs_game"), d, "fs_game");
  }

  /** Every name a list of setters sets is present afterwards. */
  lemma ApplyDefaultsAllPresent(st: Store, d: seq<Default>)
    ensures forall i :: 0 <= i < |d| ==> Lookup(ApplyDefaults(st, d).settings, d[i].name).Some?
  {
    forall i | 0 <= i < |d|
      ensures Lookup(ApplyDefaults(st, d).settings, d[i].name).Some?
    {
      ApplyDefaultsPresent(st, d, d[i].name);
    }
  }

  // ------------------------------------------------------- save file

  /** What idFile's WriteInt, WriteString and WriteBool put in the file. */
  datatype Item = IntItem(i: int) | StringItem(s: string) | BoolItem(b: bool)

  const MAX_SAVED_SETTINGS := 50

  /** One saved setting: name, type code, and the value its type selects. */
  function RecordItems(e: Setting): seq<Item>
  {
    [StringItem(e.name), IntItem(TypeCode(e.ty))]
    + match e.ty
      case NoType => []
      case OptionType => [BoolItem(e.boolValue)]
      case BooleanType => [BoolItem(e.boolValue)]
      case IntegerType => [IntItem(e.intValue)]
      case StringType => [StringItem(e.strValue)]
  }

  function RecordsOf(settings: seq<Setting>): seq<Item>
  {
    if |settings| == 0 then [] else RecordItems(settings[0]) + RecordsOf(settings[1..])
  }

  /** save_settings: the number of entries, then each entry in list order. */
  function Serialize(settings: seq<Setting>): seq<Item>
  {
    [IntItem(|settings|)] + RecordsOf(settings)
  }

  /** A record as load_settings reads it; value is None for an unknown type code. */
  datatype Record = Record(name: string, value: Option<Value>)

  /** Reads one record; None when an item is missing or of the wrong kind. */
  function ReadRecord(items: seq<Item>): Option<(Record, seq<Item>)>
  {
    if |items| < 2 || !items[0].StringItem? || !items[1].IntItem? then None
    else
      var name, code, rest := items[0].s, items[1].i, items[2..];
      if code == 1 || code == 2 then
        if |rest| == 0 || !rest[0].BoolItem? then None
        else Some((Record(name, Some(if code == 1 then OptionValue(rest[0].b) else BoolValue(rest[0].b))), rest[1..]))
      else if code == 3 then
        if |rest| == 0 || !rest[0].IntItem? then None
        else Some((Record(name, Some(IntValue(rest[0].i))), rest[1..]))
      else if code == 4 then
        if |rest| == 0 || !rest[0].StringItem? then None
        else Some((Record(name, Some(StringValue(rest[0].s))), rest[1..]))
      else Some((Record(name, None), rest))
  }

  /** A string whose existing setting is marked not to be saved is not loaded either. */
  predicate SkipsString(settings: seq<Setting>, name: string)
  {
    match Lookup(settings, name)
    case Some(e) => !e.save
    case None => false
  }

  /** The switch on the type in load_settings; setters get an empty description. */
  function ApplyRecord(st: Store, rec: Record): Store
  {
    match rec.value
    case None => st
    case Some(v) =>
      if v.StringValue? && SkipsString(st.settings, rec.name) then st
      else Upsert(st, rec.name, v, "")
  }

  function LoadRecords(st: Store, items: seq<Item>, n: nat): Store
    decreases n
  {
    if n == 0 then st
    else match ReadRecord(items)
      case None => st
      case Some((rec, rest)) => LoadRecords(ApplyRecord(st, rec), rest, n - 1)
  }

  /** load_settings: a count above 50 is refused and nothing changes. */
  function Load(st: Store, items: seq<Item>): Store
  {
    if |items| == 0 || !items[0].IntItem? || items[0].i > MAX_SAVED_SETTINGS then st
    else LoadRecords(st, items[1..], if items[0].i < 0 then 0 else items[0].i)
  }

  lemma ReadRecordItems(e: Setting, rest: seq<Item>)
    ensures ReadRecord(RecordItems(e) + rest) == Some((Record(e.name, ValueOf(e)), rest))
  {
    var s := RecordItems(e) + rest;
    assert s[0] == StringItem(e.name) && s[1] == IntItem(TypeCode(e.ty));
    if e.ty != NoType {
      assert s[2..][1..] == rest;
    } else {
      assert s[2..] == rest;
    }
  }

  /** What a value loaded from the saved list `saved` into the store `st` is for one name. */
  function LoadedValue(st: Store, saved: seq<Setting>, name: string): Option<Value>
  {
    match Lookup(saved, name)
    case None => ValueAt(st.settings, name)
    case Some(e) =>
      if ValueOf(e).None? || (e.ty == StringType && SkipsString(st.settings, name)) then ValueAt(st.settings, name)
      else ValueOf(e)
  }

  /** An entry whose name is not `name` changes neither the value nor the skip mark of `name`. */
  lemma ApplyRecordKeepsOthers(st: Store, rec: Record, name: string)
    requires rec.name != name
    ensures Lookup(ApplyRecord(st, rec).settings, name) == Lookup(st.settings, name)
  {
    if rec.value.Some? && !(rec.value.value.StringValue? && SkipsString(st.settings, rec.name)) {
      UpsertKeepsOthers(st, rec.name, rec.value.value, "", name);
    }
  }

  /** Loading the records of a list starts with its first entry. */
  lemma LoadRecordsStep(st: Store, saved: seq<Setting>, rest: seq<Item>)
    requires |saved| > 0
    ensures LoadRecords(st, RecordsOf(saved) + rest, |saved|)
         == LoadRecords(ApplyRecord(st, Record(saved[0].name, ValueOf(saved[0]))), RecordsOf(saved[1..]) + rest, |saved| - 1)
  {
    assert RecordsOf(saved) + rest == RecordItems(saved[0]) + (RecordsOf(saved[1..]) + rest);
    ReadRecordItems(saved[0], RecordsOf(saved[1..]) + rest);
  }

  /** The expected value of a name does not change when the first saved entry is applied first. */
  lemma LoadedValueStep(st: Store, saved: seq<Setting>, name: string)
    requires |saved| > 0 && NamesUnique(saved)
    ensures LoadedValue(st, saved, name)
         == LoadedValue(ApplyRecord(st, Record(saved[0].name, ValueOf(saved[0]))), saved[1..], name)
  {
    var e := saved[0];
    var rec := Record(e.name, ValueOf(e));
    var st1 := ApplyRecord(st, rec);
    if e.name == name {
      assert FindIndex(saved, name) == Some(0);
      assert FindIndex(saved[1..], name).None?;
      if st1 != st {
        UpsertThenLookup(st, name, ValueOf(e).value, "");
      }
    } else {
      ApplyRecordKeepsOthers(st, rec, name);
      match FindIndex(saved[1..], name)
      case Some(k) =>
        FindIndexOfFirst(saved, name, k + 1);
      case None =>
        assert FindIndex(saved, name).None?;
    }
  }

  lemma {:induction false} LoadRecordsRoundTrip(st: Store, saved: seq<Setting>, rest: seq<Item>, name: string)
    requires NamesUnique(saved)
    ensures ValueAt(LoadRecords(st, RecordsOf(saved) + rest, |saved|).settings, name) == LoadedValue(st, saved, name)
    decreases |saved|
  {
    if |saved| > 0 {
      var st1 := ApplyRecord(st, Record(saved[0].name, ValueOf(saved[0])));
      var tail := saved[1..];
      assert NamesUnique(tail);
      calc {
        ValueAt(LoadRecords(st, RecordsOf(saved) + rest, |saved|).settings, name);
        { LoadRecordsStep(st, saved, rest); }
        ValueAt(LoadRecords(st1, RecordsOf(tail) + rest, |tail|).settings, name);
        { LoadRecordsRoundTrip(st1, tail, rest, name); }
        LoadedValue(st1, tail, name);
        { LoadedValueStep(st, saved, name); }
        LoadedValue(st, saved, name);
      }
    } else {
      assert RecordsOf(saved) + rest == rest;
    }
  }

  /**
   * Save then load: every saved name gets back its type and value, except a
   * string whose current entry is marked not to be saved; names not saved
   * keep their value.
   */
  lemma SaveLoadRoundTrip(st: Store, saved: seq<Setting>, name: string)
    requires NamesUnique(saved) && |saved| <= MAX_SAVED_SETTINGS
    ensures ValueAt(Load(st, Serialize(saved)).settings, name) == LoadedValue(st, saved, name)
  {
    assert Serialize(saved)[1..] == RecordsOf(saved) + [];
    LoadRecordsRoundTrip(st, saved, [], name);
  }

  /** Loading a store's own save file changes none of its values. */
  lemma SaveLoadIdentity(st: Store, name: string)
    requires NamesUnique(st.settings) && |st.settings| <= MAX_SAVED_SETTINGS
    ensures ValueAt(Load(st, Serialize(st.settings)).settings, name) == ValueAt(st.settings, name)
  {
    SaveLoadRoundTrip(st, st.settings, name);
  }

  /** A count above 50 leaves every setting as it was, whatever follows it. */
  lemma LoadRefusesLargeCount(st: Store, count: int, rest: seq<Item>)
    requires count > MAX_SAVED_SETTINGS
    ensures Load(st, [IntItem(count)] + rest) == st
  {
  }

  // ---------------------------------------------------- command lines

  /** An element of the argument vector: text, or a number get_num formats. */
  datatype Arg = Text(s: string) | Number(n: int)

  const ENABLE := 1
  const DISABLE := 0

  /** The arguments one setting contributes when the launcher closes. */
  function SettingArgs(e: Setting): seq<Arg>
  {
    match e.ty
    case OptionType => if e.boolValue then [Text(e.name)] else []
    case IntegerType => [Text("+set"), Text(e.name), Number(e.intValue)]
    case BooleanType => [Text("+set"), Text(e.name), Number(if e.boolValue then ENABLE else DISABLE)]
    case StringType => [Text("+set"), Text(e.name), Text(e.strValue)]
    case NoType => []
  }

  function SettingsArgs(settings: seq<Setting>): seq<Arg>
  {
    if |settings| == 0 then [] else SettingArgs(settings[0]) + SettingsArgs(settings[1..])
  }

  /**
   * A reading of a command line as `+set name value` triples and single
   * words. It stands in for the engine's own command-line parsing, which is
   * not part of this model: the generated arguments are shown unambiguous
   * under this reading only.
   */
  datatype Command = SetCvar(name: Arg, value: Arg) | Word(a: Arg)

  function Commands(args: seq<Arg>): seq<Command>
  {
    if |args| == 0 then []
    else if |args| >= 3 && args[0] == Text("+set") then [SetCvar(args[1], args[2])] + Commands(args[3..])
    else [Word(args[0])] + Commands(args[1..])
  }

  /** The command a setting stands for: a cvar assignment, an enabled option, or nothing. */
  function CommandsOf(settings: seq<Setting>): seq<Command>
  {
    if |settings| == 0 then []
    else
      var e := settings[0];
      var c := match e.ty
        case OptionType => if e.boolValue then [Word(Text(e.name))] else []
        case IntegerType => [SetCvar(Text(e.name), Number(e.intValue))]
        case BooleanType => [SetCvar(Text(e.name), Number(if e.boolValue then 1 else 0))]
        case StringType => [SetCvar(Text(e.name), Text(e.strValue))]
        case NoType => [];
      c + CommandsOf(settings[1..])
  }

  /** No enabled option is itself called "+set". */
  predicate OptionNamesPlain(settings: seq<Setting>)
  {
    forall i :: 0 <= i < |settings| && settings[i].ty == OptionType ==> settings[i].name != "+set"
  }

  /**
   * The engine reads back from the generated arguments exactly one command
   * per setting, in list order: a `+set` of the setting's value, the name of
   * an enabled option, nothing for a disabled one.
   */
  lemma {:induction false} SettingsArgsParse(settings: seq<Setting>)
    requires OptionNamesPlain(settings)
    ensures Commands(SettingsArgs(settings)) == CommandsOf(settings)
    decreases |settings|
  {
    if |settings| > 0 {
      var e := settings[0];
      var tail := SettingsArgs(settings[1..]);
      assert OptionNamesPlain(settings[1..]) by {
        forall i | 0 <= i < |settings[1..]| && settings[1..][i].ty == OptionType
          ensures settings[1..][i].name != "+set"
        {
          assert settings[1..][i] == settings[i + 1];
        }
      }
      SettingsArgsParse(settings[1..]);
      var a := SettingArgs(e) + tail;
      match e.ty
      case OptionType =>
        if e.boolValue {
          assert a[0] == Text(e.name) && a[1..] == tail;
        } else {
          assert a == tail;
        }
      case NoType =>
        assert a == tail;
      case IntegerType =>
        assert a[3..] == tail;
      case BooleanType =>
        assert a[3..] == tail;
      case StringType =>
        assert a[3..] == tail;
    }
  }

  /** The first "fs_basepath" at index 1 or later; the index after it, or -1. */
  function BasepathIndex(args: seq<string>, i: nat): (r: int)
    requires 1 <= i
    ensures r == -1 || (i + 1 <= r <= |args| && args[r - 1] == "fs_basepath")
    ensures r != -1 ==> forall j :: i <= j < r - 1 ==> args[j] != "fs_basepath"
    ensures r == -1 <==> forall j :: i <= j < |args| ==> args[j] != "fs_basepath"
    decreases |args| - i
  {
    if i >= |args| then -1
    else if args[i] == "fs_basepath" then i + 1
    else BasepathIndex(args, i + 1)
  }

  /** The arguments the launcher keeps: all but those at indices idx - 2 to idx. */
  function KeptArgs(args: seq<string>, idx: int): (r: seq<Arg>)
    ensures |r| <= |args|
  {
    if |args| == 0 then []
    else
      var i := |args| - 1;
      KeptArgs(args[..i], idx) + (if idx - 2 <= i <= idx then [] else [Text(args[i])])
  }

  function Texts(args: seq<string>): (r: seq<Arg>)
    ensures |r| == |args| && forall i :: 0 <= i < |args| ==> r[i] == Text(args[i])
  {
    if |args| == 0 then [] else Texts(args[..|args| - 1]) + [Text(args[|args| - 1])]
  }

  /** KeptArgs drops nothing outside the window and keeps the rest in order. */
  lemma {:induction false} KeptArgsOutside(args: seq<string>, idx: int)
    requires idx < 0 || idx - 2 >= |args|
    ensures KeptArgs(args, idx) == Texts(args)
  {
    if |args| > 0 {
      KeptArgsOutside(args[..|args| - 1], idx);
    }
  }

  /** With fs_basepath at index idx - 1, exactly the three arguments idx - 2, idx - 1 and idx are dropped. */
  lemma {:induction false} KeptArgsDropWindow(args: seq<string>, idx: int)
    requires 2 <= idx <= |args|
    ensures KeptArgs(args, idx) == Texts(args[..idx - 2]) + Texts(args[if idx + 1 <= |args| then idx + 1 else |args|..])
    decreases |args|
  {
    var n := |args|;
    if n > idx + 1 {
      KeptArgsDropWindow(args[..n - 1], idx);
      assert args[..n - 1][..idx - 2] == args[..idx - 2];
      var hi := args[idx + 1..];
      assert args[..n - 1][idx + 1..] == args[idx + 1..n - 1];
      assert hi[..|hi| - 1] == args[idx + 1..n - 1];
      assert Texts(hi) == Texts(hi[..|hi| - 1]) + [Text(hi[|hi| - 1])];
    } else {
      assert KeptArgs(args, idx) == KeptArgs(args[..idx - 2], idx) by {
        KeptTail(args, idx);
      }
      assert args[if idx + 1 <= n then idx + 1 else n..] == [];
      KeptArgsOutside(args[..idx - 2], idx);
    }
  }

  /** The last arguments, from idx - 2 on, are all dropped. */
  lemma {:induction false} KeptTail(args: seq<string>, idx: int)
    requires 2 <= idx && idx - 2 <= |args| <= idx + 1
    ensures KeptArgs(args, idx) == KeptArgs(args[..idx - 2], idx)
    decreases |args|
  {
    if |args| > idx - 2 {
      assert KeptArgs(args, idx) == KeptArgs(args[..|args| - 1], idx);
      assert args[..|args| - 1][..idx - 2] == args[..idx - 2];
      KeptTail(args[..|args| - 1], idx);
    } else {
      assert args[..idx - 2] == args;
    }
  }

  // ------------------------------------------------------- the launcher

  /** The store before the defaults: fs_basepath from the command line, when it is there. */
  function BasepathStore(args: seq<string>): Store
  {
    var idx := BasepathIndex(args, 1);
    if idx == -1 then Store([], INITIAL_LAST_UID)
    else Upsert(Store([], INITIAL_LAST_UID), "fs_basepath", StringValue(if idx < |args| then args[idx] else ""), "")
  }

  /**
   * The launcher window's size: the current display mode on Sailfish OS,
   * a fixed 1280x720 elsewhere.
   */
  function NativeSize(displayWidth: int, displayHeight: int, sailfish: bool): (r: (int, int))
    ensures sailfish ==> r == (displayWidth, displayHeight)
    ensures !sailfish ==> r == (1280, 720) && r.0 > r.1
  {
    if sailfish then (displayWidth, displayHeight) else (1280, 720)
  }

  /**
   * The settings after the constructor: the defaults over BasepathStore, then
   * the save file when it opened. The defaults see native_landscape as the
   * native width exceeding the native height.
   */
  function StartupStore(args: seq<string>, nativeWidth: int, nativeHeight: int, sailfish: bool,
                        file: Option<seq<Item>>): Store
  {
    var st1 := DefaultSettingsOf(BasepathStore(args), nativeWidth, nativeHeight, nativeWidth > nativeHeight, sailfish);
    if file.None? then st1 else Load(st1, file.value)
  }

  /** LauncherPrivate's settings and argument vector. */
  class LauncherState {
    var settings: seq<Setting>
    var lastUid: int
    var argv: seq<Arg>
    var noBasepath: bool
    var settingsChanged: bool

    ghost function Current(): Store
      reads this
    {
      Store(settings, lastUid)
    }

    ghost predicate Valid()
      reads this
    {
      NamesUnique(settings) && UidsOrdered(Current())
    }

    /**
     * Launcher::Launcher: the command line is filtered around fs_basepath,
     * the path becomes the fs_basepath setting, then the defaults are set
     * and the save file, when one could be opened, is loaded.
     * A path past the last argument is argv[argc], a null pointer, which
     * becomes the empty string. `sdlReady` is whether SDL_Init succeeded;
     * when it did not, the constructor returns before any of this, leaving
     * no arguments, no settings and no_basepath set.
     */
    constructor (sdlReady: bool, args: seq<string>, displayWidth: int, displayHeight: int,
                 sailfish: bool, file: Option<seq<Item>>)
      ensures Valid()
      ensures !sdlReady ==> argv == [] && noBasepath && !settingsChanged && Current() == Store([], INITIAL_LAST_UID)
      ensures sdlReady ==>
                var idx := BasepathIndex(args, 1);
                var size := NativeSize(displayWidth, displayHeight, sailfish);
                argv == KeptArgs(args, idx) && noBasepath == (idx == -1) && !settingsChanged
                && Current() == StartupStore(args, size.0, size.1, sailfish, file)
    {
      settings := [];
      lastUid := INITIAL_LAST_UID;
      argv := [];
      noBasepath := true;
      settingsChanged := false;
      new;
      if sdlReady {
        var idx := FilterArgs(args);
        assert argv == KeptArgs(args, idx) && noBasepath == (idx == -1) && !settingsChanged;
        var size := NativeSize(displayWidth, displayHeight, sailfish);
        InitSettings(args, idx, size.0, size.1, sailfish, file);
      }
    }

    /** The settings part of the constructor: fs_basepath, the defaults, then the save file. */
    method InitSettings(args: seq<string>, idx: int, nativeWidth: int, nativeHeight: int,
                        sailfish: bool, file: Option<seq<Item>>)
      requires Current() == Store([], INITIAL_LAST_UID) && idx == BasepathIndex(args, 1)
      modifies this`settings, this`lastUid
      ensures Valid()
      ensures Current() == StartupStore(args, nativeWidth, nativeHeight, sailfish, file)
    {
      if idx != -1 {
        SetSetting("fs_basepath", StringValue(if idx < |args| then args[idx] else ""), "");
      }
      assert Current() == BasepathStore(args);
      DefaultSettings(nativeWidth, nativeHeight, nativeWidth > nativeHeight, sailfish);
      if file.Some? {
        LoadSettings(file.value);
      }
    }

    /** The argument scan and copy of the constructor; returns fs_basepath_index. */
    method FilterArgs(args: seq<string>) returns (idx: int)
      modifies this`argv, this`noBasepath
      ensures idx == BasepathIndex(args, 1)
      ensures argv == old(argv) + KeptArgs(args, idx)
      ensures noBasepath == (old(noBasepath) && idx == -1)
    {
      idx := -1;
      var i := 1;
      while i < |args|
        invariant 1 <= i && (i <= |args| || |args| == 0)
        invariant BasepathIndex(args, 1) == BasepathIndex(args, i)
        invariant noBasepath == old(noBasepath)
      {
        if args[i] == "fs_basepath" {
          noBasepath := false;
          i := i + 1;
          idx := i;
          break;
        }
        i := i + 1;
      }
      for j := 0 to |args|
        invariant argv == old(argv) + KeptArgs(args[..j], idx)
        invariant noBasepath == (old(noBasepath) && idx == -1)
      {
        assert args[..j + 1][..j] == args[..j];
        if idx - 2 <= j <= idx {
          continue;
        }
        argv := argv + [Text(args[j])];
      }
      assert args[..|args|] == args;
    }

    /** The std::find_if over the settings list. */
    method FindSetting(name: string) returns (r: Option<nat>)
      ensures r == FindIndex(settings, name)
    {
      var i := 0;
      while i < |settings|
        invariant 0 <= i <= |settings|
        invariant forall j :: 0 <= j < i ==> settings[j].name != name
      {
        if settings[i].name == name {
          FindIndexOfFirst(settings, name, i);
          return Some(i);
        }
        i := i + 1;
      }
      return None;
    }

    /** get_setting: the entry with that name, or None for the null pointer. */
    method GetSetting(name: string) returns (r: Option<Setting>)
      ensures r == Lookup(settings, name)
      ensures r.None? <==> forall j :: 0 <= j < |settings| ==> settings[j].name != name
    {
      var k := FindSetting(name);
      if k.None? {
        return None;
      }
      return Some(settings[k.value]);
    }

    /** set_setting_option, set_setting_bool, set_setting_int and set_setting_string. */
    method SetSetting(name: string, v: Value, description: string)
      requires Valid()
      modifies this`settings, this`lastUid
      ensures Valid()
      ensures Current() == Upsert(old(Current()), name, v, description)
    {
      var k := FindSetting(name);
      UpsertShape(Current(), name, v, description);
      UpsertKeepsUidsOrdered(Current(), name, v, description);
      if k.None? {
        lastUid := lastUid + 1;
        settings := settings + [Assign(NewSetting(lastUid), name, v, description)];
      } else {
        settings := settings[k.value := Assign(settings[k.value], name, v, description)];
      }
    }

    /** default_settings. */
    method DefaultSettings(nativeWidth: int, nativeHeight: int, nativeLandscape: bool, sailfish: bool)
      requires Valid()
      modifies this`settings, this`lastUid
      ensures Valid()
      ensures Current() == DefaultSettingsOf(old(Current()), nativeWidth, nativeHeight, nativeLandscape, sailfish)
    {
      SetSetting("fs_game", StringValue(""), "");
      MarkUnsaved("fs_game");
      ApplyAll(DefaultEntries(nativeWidth, nativeHeight, nativeLandscape, sailfish));
    }

    /** get_setting_edit(name)->save = false. */
    method MarkUnsaved(name: string)
      requires Valid()
      modifies this`settings
      ensures Valid()
      ensures Current() == ClearSave(old(Current()), name)
    {
      var k := FindSetting(name);
      if k.Some? {
        settings := settings[k.value := settings[k.value].(save := false)];
      }
    }

    /** The setter calls of default_settings after fs_game, in order. */
    method ApplyAll(defaults: seq<Default>)
      requires Valid()
      modifies this`settings, this`lastUid
      ensures Valid()
      ensures Current() == ApplyDefaults(old(Current()), defaults)
    {
      for i := 0 to |defaults|
        invariant Valid()
        invariant ApplyDefaults(Current(), defaults[i..]) == ApplyDefaults(old(Current()), defaults)
      {
        assert defaults[i..][1..] == defaults[i + 1..];
        SetSetting(defaults[i].name, defaults[i].value, "");
      }
    }

    /** save_settings: the items written to the file. */
    method SaveSettings() returns (file: seq<Item>)
      ensures file == Serialize(settings)
    {
      file := [IntItem(|settings|)];
      for i := 0 to |settings|
        invariant file + RecordsOf(settings[i..]) == Serialize(settings)
      {
        assert settings[i..][1..] == settings[i + 1..];
        assert RecordsOf(settings[i..]) == RecordItems(settings[i]) + RecordsOf(settings[i + 1..]);
        var items := WriteRecord(settings[i]);
        file := file + items;
      }
    }

    /** One entry of save_settings: name, type code, then the value its type selects. */
    static method WriteRecord(e: Setting) returns (items: seq<Item>)
      ensures items == RecordItems(e)
    {
      items := [StringItem(e.name), IntItem(TypeCode(e.ty))];
      match e.ty {
        case OptionType => items := items + [BoolItem(e.boolValue)];
        case BooleanType => items := items + [BoolItem(e.boolValue)];
        case StringType => items := items + [StringItem(e.strValue)];
        case IntegerType => items := items + [IntItem(e.intValue)];
        case NoType =>
      }
    }

    /** load_settings over the items of a file that could be opened. */
    method LoadSettings(file: seq<Item>)
      requires Valid()
      modifies this`settings, this`lastUid
      ensures Valid()
      ensures Current() == Load(old(Current()), file)
    {
      if |file| == 0 || !file[0].IntItem? {
        return;
      }
      var count := file[0].i;
      if count > MAX_SAVED_SETTINGS {
        return;
      }
      var pos := 1;
      var i := 0;
      while i < count
        invariant 0 <= i && 1 <= pos <= |file|
        invariant Valid()
        invariant LoadRecords(Current(), file[pos..], if count - i < 0 then 0 else count - i) == Load(old(Current()), file)
      {
        var rec := ReadRecordAt(file, pos);
        if rec.None? {
          return;
        }
        var r := rec.value.0;
        pos := rec.value.1;
        if r.value.Some? {
          var v := r.value.value;
          var skip := false;
          if v.StringValue? {
            var s := GetSetting(r.name);
            skip := s.Some? && !s.value.save;
          }
          if !skip {
            SetSetting(r.name, v, "");
          }
        }
        i := i + 1;
      }
    }

    /** ReadString, ReadInt and the value read that the type selects. */
    static method ReadRecordAt(file: seq<Item>, pos: nat) returns (r: Option<(Record, nat)>)
      requires pos <= |file|
      ensures r.None? <==> ReadRecord(file[pos..]).None?
      ensures r.Some? ==> pos < r.value.1 <= |file| && ReadRecord(file[pos..]) == Some((r.value.0, file[r.value.1..]))
    {
      if pos + 2 > |file| || !file[pos].StringItem? || !file[pos + 1].IntItem? {
        return None;
      }
      var name := file[pos].s;
      var code := file[pos + 1].i;
      var next := pos + 2;
      assert file[pos..][2..] == file[next..];
      if code == 1 || code == 2 {
        if next == |file| || !file[next].BoolItem? {
          return None;
        }
        var v := if code == 1 then OptionValue(file[next].b) else BoolValue(file[next].b);
        assert file[next..][1..] == file[next + 1..];
        return Some((Record(name, Some(v)), next + 1));
      } else if code == 3 {
        if next == |file| || !file[next].IntItem? {
          return None;
        }
        assert file[next..][1..] == file[next + 1..];
        return Some((Record(name, Some(IntValue(file[next].i))), next + 1));
      } else if code == 4 {
        if next == |file| || !file[next].StringItem? {
          return None;
        }
        assert file[next..][1..] == file[next + 1..];
        return Some((Record(name, Some(StringValue(file[next].s))), next + 1));
      }
      return Some((Record(name, None), next));
    }

    /** The end of Launcher::render: each setting's arguments are appended in list order. */
    method AppendSettingsArgs()
      modifies this`argv
      ensures argv == old(argv) + SettingsArgs(settings)
    {
      for i := 0 to |settings|
        invariant argv + SettingsArgs(settings[i..]) == old(argv) + SettingsArgs(settings)
      {
        assert settings[i..][1..] == settings[i + 1..];
        var e := settings[i];
        var added: seq<Arg> := [];
        if e.ty == OptionType {
          if e.boolValue {
            added := [Text(e.name)];
          }
        } else if e.ty == IntegerType {
          added := [Text("+set"), Text(e.name), Number(e.intValue)];
        } else if e.ty == BooleanType {
          added := [Text("+set"), Text(e.name), Number(if e.boolValue then ENABLE else DISABLE)];
        } else if e.ty == StringType {
          added := [Text("+set"), Text(e.name), Text(e.strValue)];
        }
        assert added == SettingArgs(e);
        argv := argv + added;
      }
    }
  }
}
