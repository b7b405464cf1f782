/**
 * The GObject that carries one match in the aggregate list store
 * (anyrun/src/gmatch.rs): eight independent properties addressed by name,
 * `Option<u64>` for the match id encoded as the pair (`id`, `id-some`), and
 * the conversions to and from the plugin-side record `RMatch`.
 */
module GMatches {
  import opened Base

  /** `anyrun_interface::Match`, the record a plugin returns. */
  datatype RMatch = RMatch(
    title: string,
    description: Option<string>,
    usePango: bool,
    icon: Option<string>,
    id: Option<u64>)

  /** The stored state of a `GMatch` object: one value per property. */
  datatype Fields = Fields(
    title: string,
    description: Option<string>,
    usePango: bool,
    icon: Option<string>,
    id: u64,
    idSome: bool,
    pluginId: u64,
    first: bool)

  /**
   * A `glib::Value` of one of the three types the properties are registered
   * with. A `G_TYPE_STRING` value may be NULL, which Rust sees as
   * `Option<String>`: `None` is NULL.
   */
  datatype Value = Str(o: Option<string>) | Bool(b: bool) | U64(n: u64)

  /**
   * Setting or reading a property aborts the program: `unimplemented!` for
   * an unknown name, glib's type check for a value of another type, or the
   * `expect` of `set_property` for a NULL string stored into the `String` title.
   */
  datatype PropertyError = UnknownProperty(name: string) | WrongType(name: string)

  /** The registered property names, in the order of `properties()`. */
  const PropertyNames: seq<string> :=
    ["title", "description", "use-pango", "icon", "id", "id-some", "plugin-id", "first"]

  /** `#[derive(Default)]`: every field at its type's default. */
  const DefaultFields: Fields := Fields("", None, false, None, 0, false, 0, false)

  /** The value a property reads as (`property`), or the error for an unknown name. */
  function GetField(f: Fields, name: string): (r: Result<Value, PropertyError>)
    ensures r.Err? <==> name !in PropertyNames
    ensures r.Err? ==> r.error == UnknownProperty(name)
  {
    match name
    case "title" => Ok(Str(Some(f.title)))
    case "description" => Ok(Str(f.description))
    case "use-pango" => Ok(Bool(f.usePango))
    case "icon" => Ok(Str(f.icon))
    case "id" => Ok(U64(f.id))
    case "id-some" => Ok(Bool(f.idSome))
    case "plugin-id" => Ok(U64(f.pluginId))
    case "first" => Ok(Bool(f.first))
    case _ => Err(UnknownProperty(name))
  }

  /**
   * Whether `set_property(name, v)` stores `v`: the value has the type the
   * property's `ParamSpec` registers (a string for `title`, `description`
   * and `icon`), and the title, a Rust `String`, is not given NULL.
   */
  predicate Accepts(name: string, v: Value) {
    match name
    case "title" => v.Str? && v.o.Some?
    case "description" | "icon" => v.Str?
    case "use-pango" | "id-some" | "first" => v.Bool?
    case _ => v.U64?
  }

  /**
   * The fields after `set_property(name, v)`: the named field replaced, or an
   * error for an unknown name or a value of the wrong type.
   */
  function SetField(f: Fields, name: string, v: Value): (r: Result<Fields, PropertyError>)
    ensures name !in PropertyNames ==> r == Err(UnknownProperty(name))
    ensures name in PropertyNames ==> (r.Ok? <==> Accepts(name, v))
  {
    match name
    case "title" => if v.Str? && v.o.Some? then Ok(f.(title := v.o.value)) else Err(WrongType(name))
    case "description" => if v.Str? then Ok(f.(description := v.o)) else Err(WrongType(name))
    case "use-pango" => if v.Bool? then Ok(f.(usePango := v.b)) else Err(WrongType(name))
    case "icon" => if v.Str? then Ok(f.(icon := v.o)) else Err(WrongType(name))
    case "id" => if v.U64? then Ok(f.(id := v.n)) else Err(WrongType(name))
    case "id-some" => if v.Bool? then Ok(f.(idSome := v.b)) else Err(WrongType(name))
    case "plugin-id" => if v.U64? then Ok(f.(pluginId := v.n)) else Err(WrongType(name))
    case "first" => if v.Bool? then Ok(f.(first := v.b)) else Err(WrongType(name))
    case _ => Err(UnknownProperty(name))
  }

  /**
   * The three string properties share glib's string type. Any string may be
   * stored into each of them, and a NULL string into `description` and
   * `icon`, but not into `title`.
   */
  lemma StringProperties(f: Fields, s: string)
    ensures forall name :: name in ["title", "description", "icon"] ==> SetField(f, name, Str(Some(s))).Ok?
    ensures SetField(f, "description", Str(Some(s))) == Ok(f.(description := Some(s)))
    ensures SetField(f, "icon", Str(None)) == Ok(f.(icon := None))
    ensures SetField(f, "title", Str(None)) == Err(WrongType("title"))
  {
  }

  /** Reading a property returns the last value written to it. */
  lemma GetAfterSet(f: Fields, name: string, v: Value)
    requires SetField(f, name, v).Ok?
    ensures GetField(SetField(f, name, v).value, name) == Ok(v)
  {
  }

  /** Setting one property leaves every other property as it was. */
  lemma SetLeavesOthers(f: Fields, name: string, v: Value, other: string)
    requires SetField(f, name, v).Ok?
    requires other != name
    ensures GetField(SetField(f, name, v).value, other) == GetField(f, other)
  {
    var g := SetField(f, name, v).value;
    match other {
      case "title" => assert g.title == f.title;
      case "description" => assert g.description == f.description;
      case "use-pango" => assert g.usePango == f.usePango;
      case "icon" => assert g.icon == f.icon;
      case "id" => assert g.id == f.id;
      case "id-some" => assert g.idSome == f.idSome;
      case "plugin-id" => assert g.pluginId == f.pluginId;
      case "first" => assert g.first == f.first;
      case _ =>
    }
  }

  /** `get_id`: the pair (`id`, `id-some`) read back as an `Option<u64>`. */
  function IdOf(f: Fields): (r: Option<u64>)
    ensures r.Some? <==> f.idSome
    ensures r.Some? ==> r.value == f.id
  {
    if f.idSome then Some(f.id) else None
  }

  /** The fields after `set_id(v)`. */
  function WithId(f: Fields, v: Option<u64>): (r: Fields)
    ensures r.idSome == v.Some?
    ensures r.id == (if v.Some? then v.value else 0)
    ensures r.(id := f.id, idSome := f.idSome) == f
  {
    match v
    case Some(n) => f.(id := n, idSome := true)
    case None => f.(id := 0, idSome := false)
  }

  /** `get_id` after `set_id(v)` returns `v`, for both `Some(n)` and `None`. */
  lemma IdRoundTrip(f: Fields, v: Option<u64>)
    ensures IdOf(WithId(f, v)) == v
  {
  }

  /** The fields a `GMatch` gets from `From<RMatch>`. */
  function FromRMatch(r: RMatch): (f: Fields)
    ensures f.title == r.title && f.description == r.description
    ensures f.usePango == r.usePango && f.icon == r.icon
    ensures IdOf(f) == r.id
    ensures f.pluginId == 0 && f.first
  {
    WithId(DefaultFields.(title := r.title, description := r.description,
                          usePango := r.usePango, icon := r.icon), r.id)
      .(pluginId := 0, first := true)
  }

  /** The record `From<GMatch> for RMatch` builds from the getters. */
  function ToRMatch(f: Fields): (r: RMatch)
    ensures r.title == f.title && r.description == f.description
    ensures r.usePango == f.usePango && r.icon == f.icon
    ensures r.id == IdOf(f)
  {
    RMatch(f.title, f.description, f.usePango, f.icon, IdOf(f))
  }

  /** `RMatch` to `GMatch` and back gives the original record, field for field. */
  lemma RMatchRoundTrip(r: RMatch)
    ensures ToRMatch(FromRMatch(r)) == r
  {
  }

  /** `GMatch` to `RMatch` and back keeps every property except the two group fields. */
  lemma FieldsRoundTrip(f: Fields)
    requires f.idSome || f.id == 0
    ensures FromRMatch(ToRMatch(f)) == f.(pluginId := 0, first := true)
  {
  }

  /** `imp::GMatch` together with the wrapper's accessors. */
  class GMatch {
    var title: string
    var description: Option<string>
    var usePango: bool
    var icon: Option<string>
    var id: u64
    var idSome: bool
    var pluginId: u64
    var first: bool

    /** The object's eight properties as one value. */
    function Snapshot(): Fields
      reads this
    {
      Fields(title, description, usePango, icon, id, idSome, pluginId, first)
    }

    /** `GMatch::new()`: an object whose fields have their default values. */
    constructor ()
      ensures Snapshot() == DefaultFields
    {
      title, description, usePango, icon := "", None, false, None;
      id, idSome, pluginId, first := 0, false, 0, false;
    }

    /** `set_property`: replaces the named field, or fails with nothing changed. */
    method SetProperty(name: string, v: Value) returns (r: Result<(), PropertyError>)
      modifies this
      ensures match SetField(old(Snapshot()), name, v)
              case Ok(g) => r.Ok? && Snapshot() == g
              case Err(e) => r == Err(e) && Snapshot() == old(Snapshot())
    {
      match name {
        case "title" =>
          if v.Str? && v.o.Some? { title := v.o.value; r := Ok(()); } else { r := Err(WrongType(name)); }
        case "description" =>
          if v.Str? { description := v.o; r := Ok(()); } else { r := Err(WrongType(name)); }
        case "use-pango" =>
          if v.Bool? { usePango := v.b; r := Ok(()); } else { r := Err(WrongType(name)); }
        case "icon" =>
          if v.Str? { icon := v.o; r := Ok(()); } else { r := Err(WrongType(name)); }
        case "id" =>
          if v.U64? { id := v.n; r := Ok(()); } else { r := Err(WrongType(name)); }
        case "id-some" =>
          if v.Bool? { idSome := v.b; r := Ok(()); } else { r := Err(WrongType(name)); }
        case "plugin-id" =>
          if v.U64? { pluginId := v.n; r := Ok(()); } else { r := Err(WrongType(name)); }
        case "first" =>
          if v.Bool? { first := v.b; r := Ok(()); } else { r := Err(WrongType(name)); }
        case _ =>
          r := Err(UnknownProperty(name));
      }
    }

    /** `property`: the named field's value, or the error for an unknown name. */
    method Property(name: string) returns (r: Result<Value, PropertyError>)
      ensures r == GetField(Snapshot(), name)
      ensures r.Err? <==> name !in PropertyNames
    {
      match name {
        case "title" => r := Ok(Str(Some(title)));
        case "description" => r := Ok(Str(description));
        case "use-pango" => r := Ok(Bool(usePango));
        case "icon" => r := Ok(Str(icon));
        case "id" => r := Ok(U64(id));
        case "id-some" => r := Ok(Bool(idSome));
        case "plugin-id" => r := Ok(U64(pluginId));
        case "first" => r := Ok(Bool(first));
        case _ => r := Err(UnknownProperty(name));
      }
    }

    method GetTitle() returns (t: string)
      ensures t == Snapshot().title
    {
      var v := Property("title");
      t := v.value.o.value;
    }

    method SetTitle(t: string)
      modifies this
      ensures Snapshot() == old(Snapshot()).(title := t)
    {
      var r := SetProperty("title", Str(Some(t)));
    }

    method GetDescription() returns (d: Option<string>)
      ensures d == Snapshot().description
    {
      var v := Property("description");
      d := v.value.o;
    }

    method SetDescription(d: Option<string>)
      modifies this
      ensures Snapshot() == old(Snapshot()).(description := d)
    {
      var r := SetProperty("description", Str(d));
    }

    method GetUsePango() returns (b: bool)
      ensures b == Snapshot().usePango
    {
      var v := Property("use-pango");
      b := v.value.b;
    }

    method SetUsePango(b: bool)
      modifies this
      ensures Snapshot() == old(Snapshot()).(usePango := b)
    {
      var r := SetProperty("use-pango", Bool(b));
    }

    method GetIcon() returns (i: Option<string>)
      ensures i == Snapshot().icon
    {
      var v := Property("icon");
      i := v.value.o;
    }

    method SetIcon(i: Option<string>)
      modifies this
      ensures Snapshot() == old(Snapshot()).(icon := i)
    {
      var r := SetProperty("icon", Str(i));
    }

    /** `get_id`: `Some(id)` when `id-some` is set, `None` otherwise. */
    method GetId() returns (r: Option<u64>)
      ensures r == IdOf(Snapshot())
      ensures r.Some? <==> idSome
      ensures r.Some? ==> r.value == id
    {
      var i := Property("id");
      var some := Property("id-some");
      if some.value.b {
        return Some(i.value.n);
      }
      return None;
    }

    /** `set_id`: writes `id` and then `id-some`; `None` stores `id = 0`. */
    method SetId(v: Option<u64>)
      modifies this
      ensures Snapshot() == WithId(old(Snapshot()), v)
    {
      if v.Some? {
        var r := SetProperty("id", U64(v.value));
        r := SetProperty("id-some", Bool(true));
      } else {
        var r := SetProperty("id", U64(0));
        r := SetProperty("id-some", Bool(false));
      }
    }

    method GetPluginId() returns (p: u64)
      ensures p == Snapshot().pluginId
    {
      var v := Property("plugin-id");
      p := v.value.n;
    }

    method SetPluginId(p: u64)
      modifies this
      ensures Snapshot() == old(Snapshot()).(pluginId := p)
    {
      var r := SetProperty("plugin-id", U64(p));
    }

    method GetFirst() returns (b: bool)
      ensures b == Snapshot().first
    {
      var v := Property("first");
      b := v.value.b;
    }

    method SetFirst(b: bool)
      modifies this
      ensures Snapshot() == old(Snapshot()).(first := b)
    {
      var r := SetProperty("first", Bool(b));
    }

    /** `From<RMatch> for GMatch`: a new object filled in by the setters, one after another. */
    static method FromRecord(r: RMatch) returns (g: GMatch)
      ensures fresh(g)
      ensures g.Snapshot() == FromRMatch(r)
    {
      g := new GMatch();
      g.SetTitle(r.title);
      g.SetDescription(r.description);
      g.SetUsePango(r.usePango);
      g.SetIcon(r.icon);
      g.SetId(r.id);
      g.SetPluginId(0);
      g.SetFirst(true);
    }

    /** `From<GMatch> for RMatch`: the record read through the getters. */
    method ToRecord() returns (r: RMatch)
      ensures r == ToRMatch(Snapshot())
      ensures r.title == title && r.description == description
      ensures r.usePango == usePango && r.icon == icon
      ensures r.id == (if idSome then Some(id) else None)
    {
      var t := GetTitle();
      var d := GetDescription();
      var u := GetUsePango();
      var i := GetIcon();
      var n := GetId();
      r := RMatch(t, d, u, i, n);
    }
  }
}
