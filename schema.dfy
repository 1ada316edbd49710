/**
  Turning schema entries into typed properties and sections
  (`Property::new` and `Section::new` in src/misc/setup.rs).

  Each constructor is given twice: a specification function that says what
  the outcome is, and a method that builds it the way the source does, by
  pushing into a list inside a loop, proved to agree with the function.
 */
module Schema {
  import opened Wrappers
  import J = Json

  datatype Changeable = OnlyAtStart | Always | WhenIdle

  /** `Double` carries the raw bits of an `f64`; no schema entry produces it. */
  datatype PropertyValue =
    | Null
    | Path(path: string)
    | Str(text: string)
    | Hex(hex: string)
    | Bool(flag: bool)
    | Int(n: int)
    | Double(bits: bv64)

  datatype Property = Property(
    name: string,
    currentValue: PropertyValue,
    defaultValue: PropertyValue,
    suggestedValues: seq<string>,
    changeable: Changeable,
    help: string,
    min: int,
    max: int)

  datatype SectionType = Properties(props: seq<Property>) | Lines(lines: seq<string>)

  datatype Section = Section(name: string, sectionType: SectionType)

  /** Why construction panics instead of returning `None`. */
  datatype PanicReason =
    | UnknownPropertyType(propType: string)
    | BadValuesShape
    | MissingValueList(listName: string)
    | BoundsIndex
    | UnknownSectionType(sectionType: string)

  /**
    The three ways a constructor ends: a value, `None` from a `?` on a
    missing or mistyped field, or a panic.
   */
  datatype Outcome<+T> = Ok(value: T) | Fail | Panic(reason: PanicReason)

  /** Two outcomes that are the same failure, whatever their value types. */
  predicate SameFailure<A, B>(a: Outcome<A>, b: Outcome<B>) {
    || (a.Fail? && b.Fail?)
    || (a.Panic? && b.Panic? && a.reason == b.reason)
  }

  function FromOption<T>(o: Option<T>): (r: Outcome<T>)
    ensures r.Ok? <==> o.Some?
    ensures r.Ok? ==> r.value == o.value
    ensures !r.Panic?
  {
    match o
    case Some(v) => Ok(v)
    case None => Fail
  }

  const PathTypes: set<string> := {"path", "string", "multi"}

  /** The `changeable` field: the three known names, anything else is `Always`. */
  function ChangeableOf(s: string): (c: Changeable)
    ensures c == OnlyAtStart <==> s == "OnlyAtStart"
    ensures c == WhenIdle <==> s == "WhenIdle"
    ensures c == Always <==> s != "OnlyAtStart" && s != "WhenIdle"
  {
    match s
    case "OnlyAtStart" => OnlyAtStart
    case "Always" => Always
    case "WhenIdle" => WhenIdle
    case _ => Always
  }

  /**
    Every element as a string, in order; `None` as soon as one element is
    not a string. Defined from the back, as the push loop builds it.
   */
  function StringList(xs: seq<J.Json>): Option<seq<string>> {
    if xs == [] then Some([])
    else
      match StringList(xs[..|xs| - 1])
      case None => None
      case Some(ss) => if xs[|xs| - 1].Str? then Some(ss + [xs[|xs| - 1].s]) else None
  }

  predicate AllStrings(xs: seq<J.Json>) {
    forall i :: 0 <= i < |xs| ==> xs[i].Str?
  }

  lemma {:induction false} StringListSpec(xs: seq<J.Json>)
    ensures StringList(xs).Some? <==> AllStrings(xs)
    ensures StringList(xs).Some? ==>
      |StringList(xs).value| == |xs| && forall i :: 0 <= i < |xs| ==> StringList(xs).value[i] == xs[i].s
  {
    if xs != [] {
      var init := xs[..|xs| - 1];
      StringListSpec(init);
      assert forall i :: 0 <= i < |init| ==> init[i] == xs[i];
    }
  }

  /** The suggested values of a `path`/`string`/`multi` property. */
  function ValuesOf(values: J.Json, valueList: seq<(string, J.Json)>): Outcome<seq<string>> {
    match values
    case Str(listName) =>
      (match J.Lookup(valueList, listName)
       case None => Panic(MissingValueList(listName))
       case Some(named) =>
         match J.AsArray(named)
         case None => Fail
         case Some(xs) => FromOption(StringList(xs)))
    case Arr(xs) => FromOption(StringList(xs))
    case Null => Ok([])
    case _ => Panic(BadValuesShape)
  }

  /** The type-specific part of a property. */
  datatype Typed = Typed(value: PropertyValue, suggested: seq<string>, min: int, max: int)

  function TypedOf(propType: string, entry: J.Json, valueList: seq<(string, J.Json)>): Outcome<Typed> {
    if propType in PathTypes then
      match J.AsStr(J.Get(entry, "default"))
      case None => Fail
      case Some(d) =>
        match ValuesOf(J.Get(entry, "values"), valueList)
        case Ok(sv) => Ok(Typed(Path(d), sv, 0, 0))
        case Fail => Fail
        case Panic(why) => Panic(why)
    else if propType == "int" then
      match J.AsI64(J.Get(entry, "default"))
      case None => Fail
      case Some(d) =>
        match J.AsArray(J.Get(entry, "values"))
        case None => Fail
        case Some(bounds) =>
          if |bounds| == 0 then Panic(BoundsIndex)
          else
            match J.AsI64(bounds[0])
            case None => Fail
            case Some(lo) =>
              if |bounds| == 1 then Panic(BoundsIndex)
              else
                match J.AsI64(bounds[1])
                case None => Fail
                case Some(hi) => Ok(Typed(Int(d), [], lo, hi))
    else if propType == "bool" then
      match J.AsBool(J.Get(entry, "default"))
      case None => Fail
      case Some(b) => Ok(Typed(Bool(b), [], 0, 0))
    else
      Panic(UnknownPropertyType(propType))
  }

  /**
    `Property::new`: the property named `name` described by the schema
    entry `entry`; `valueList` is the schema's table of shared lists.
   */
  function PropertyOf(name: string, entry: J.Json, valueList: seq<(string, J.Json)>): Outcome<Property> {
    var propType := J.AsStr(J.Get(entry, "type"));
    var help := J.AsStr(J.Get(entry, "help"));
    var changeable := J.AsStr(J.Get(entry, "changeable"));
    if propType.None? || help.None? || changeable.None? then Fail
    else
      match TypedOf(propType.value, entry, valueList)
      case Ok(t) =>
        Ok(Property(name, t.value, t.value, t.suggested, ChangeableOf(changeable.value), help.value, t.min, t.max))
      case Fail => Fail
      case Panic(why) => Panic(why)
  }

  /** `check_value`: every property is accepted. */
  function CheckValue(p: Property): (ok: bool)
    ensures ok
  {
    true
  }

  // ---------------------------------------------------------------------
  // What a constructed property looks like

  /** A fresh property is at its default, under its entry's name and help text. */
  lemma NewPropertyStartsAtDefault(name: string, entry: J.Json, valueList: seq<(string, J.Json)>)
    ensures var r := PropertyOf(name, entry, valueList);
      r.Ok? ==>
        && r.value.currentValue == r.value.defaultValue
        && r.value.name == name
        && J.Get(entry, "help") == J.Str(r.value.help)
        && J.Get(entry, "changeable").Str?
        && r.value.changeable == ChangeableOf(J.Get(entry, "changeable").s)
  {
  }

  /** A missing or non-string `type`, `help` or `changeable` field gives `None`. */
  lemma NewPropertyRequiredFields(name: string, entry: J.Json, valueList: seq<(string, J.Json)>)
    ensures !J.Get(entry, "type").Str? ==> PropertyOf(name, entry, valueList) == Fail
    ensures !J.Get(entry, "help").Str? ==> PropertyOf(name, entry, valueList) == Fail
    ensures !J.Get(entry, "changeable").Str? ==> PropertyOf(name, entry, valueList) == Fail
  {
  }

  /** The `type` string decides the variant of the value and the bounds. */
  lemma NewPropertyTypeMapping(name: string, entry: J.Json, valueList: seq<(string, J.Json)>)
    ensures var r := PropertyOf(name, entry, valueList);
      var ty := J.Get(entry, "type");
      && (r.Ok? ==> ty.Str? && (ty.s in PathTypes || ty.s == "int" || ty.s == "bool"))
      && (r.Ok? && ty.s in PathTypes ==>
            J.Get(entry, "default").Str?
            && r.value.defaultValue == Path(J.Get(entry, "default").s)
            && r.value.min == 0 && r.value.max == 0)
      && (r.Ok? && ty.s == "bool" ==>
            J.Get(entry, "default").Bool?
            && r.value.defaultValue == Bool(J.Get(entry, "default").b)
            && r.value.suggestedValues == []
            && r.value.min == 0 && r.value.max == 0)
      && (r.Ok? && ty.s == "int" ==>
            var bounds := J.Get(entry, "values");
            && J.Get(entry, "default").Int?
            && r.value.defaultValue == Int(J.Get(entry, "default").i)
            && bounds.Arr? && |bounds.items| >= 2
            && J.AsI64(bounds.items[0]) == Some(r.value.min)
            && J.AsI64(bounds.items[1]) == Some(r.value.max)
            && r.value.suggestedValues == [])
  {
  }

  /** A default of the wrong kind for the type gives `None`. */
  lemma NewPropertyBadDefaultFails(name: string, entry: J.Json, valueList: seq<(string, J.Json)>)
    requires J.Get(entry, "type").Str? && J.Get(entry, "help").Str? && J.Get(entry, "changeable").Str?
    requires var ty := J.Get(entry, "type").s;
      var d := J.Get(entry, "default");
      || (ty in PathTypes && !d.Str?)
      || (ty == "int" && J.AsI64(d).None?)
      || (ty == "bool" && !d.Bool?)
    ensures PropertyOf(name, entry, valueList) == Fail
  {
  }

  /** A type other than path, string, multi, int and bool is fatal. */
  lemma NewPropertyUnknownTypePanics(name: string, entry: J.Json, valueList: seq<(string, J.Json)>)
    requires J.Get(entry, "type").Str? && J.Get(entry, "help").Str? && J.Get(entry, "changeable").Str?
    requires J.Get(entry, "type").s !in PathTypes + {"int", "bool"}
    ensures PropertyOf(name, entry, valueList) == Panic(UnknownPropertyType(J.Get(entry, "type").s))
  {
  }

  /**
    The `[min, max]` array of an `int` property: missing gives `None`, fewer
    than two elements is an out-of-bounds index.
   */
  lemma IntBoundsErrors(name: string, entry: J.Json, valueList: seq<(string, J.Json)>)
    requires J.Get(entry, "type") == J.Str("int") && J.Get(entry, "help").Str? && J.Get(entry, "changeable").Str?
    requires J.AsI64(J.Get(entry, "default")).Some?
    ensures !J.Get(entry, "values").Arr? ==> PropertyOf(name, entry, valueList) == Fail
    ensures J.Get(entry, "values") == J.Arr([]) ==> PropertyOf(name, entry, valueList) == Panic(BoundsIndex)
    ensures var vs := J.Get(entry, "values");
      vs.Arr? && |vs.items| == 1 && J.AsI64(vs.items[0]).Some? ==>
        PropertyOf(name, entry, valueList) == Panic(BoundsIndex)
    ensures var vs := J.Get(entry, "values");
      vs.Arr? && |vs.items| >= 1 && J.AsI64(vs.items[0]).None? ==>
        PropertyOf(name, entry, valueList) == Fail
    ensures var vs := J.Get(entry, "values");
      vs.Arr? && |vs.items| >= 2 && J.AsI64(vs.items[0]).Some? && J.AsI64(vs.items[1]).None? ==>
        PropertyOf(name, entry, valueList) == Fail
  {
  }

  /**
    A well-formed `int` entry builds: an integer default that fits in 64
    bits, and a `values` array whose first two elements do, as the bounds.
   */
  lemma NewIntProperty(name: string, entry: J.Json, valueList: seq<(string, J.Json)>)
    requires J.Get(entry, "type") == J.Str("int") && J.Get(entry, "help").Str? && J.Get(entry, "changeable").Str?
    requires J.AsI64(J.Get(entry, "default")).Some?
    requires var vs := J.Get(entry, "values");
      vs.Arr? && |vs.items| >= 2 && J.AsI64(vs.items[0]).Some? && J.AsI64(vs.items[1]).Some?
    ensures var d := J.Get(entry, "default").i;
      var vs := J.Get(entry, "values").items;
      PropertyOf(name, entry, valueList)
        == Ok(Property(name, Int(d), Int(d), [], ChangeableOf(J.Get(entry, "changeable").s),
                       J.Get(entry, "help").s, vs[0].i, vs[1].i))
  {
  }

  /** A well-formed `bool` entry builds: a boolean default, no suggested values, bounds 0 and 0. */
  lemma NewBoolProperty(name: string, entry: J.Json, valueList: seq<(string, J.Json)>)
    requires J.Get(entry, "type") == J.Str("bool") && J.Get(entry, "help").Str? && J.Get(entry, "changeable").Str?
    requires J.Get(entry, "default").Bool?
    ensures var b := J.Get(entry, "default").b;
      PropertyOf(name, entry, valueList)
        == Ok(Property(name, Bool(b), Bool(b), [], ChangeableOf(J.Get(entry, "changeable").s),
                       J.Get(entry, "help").s, 0, 0))
  {
  }

  /** How the `values` field of a path-like property resolves. */
  lemma {:induction false} ValuesOfCases(values: J.Json, valueList: seq<(string, J.Json)>)
    ensures values.Null? ==> ValuesOf(values, valueList) == Ok([])
    ensures values.Bool? || values.Int? || values.Obj? ==> ValuesOf(values, valueList) == Panic(BadValuesShape)
    ensures values.Arr? ==>
      (ValuesOf(values, valueList).Ok? <==> AllStrings(values.items))
      && (!AllStrings(values.items) ==> ValuesOf(values, valueList) == Fail)
      && (ValuesOf(values, valueList).Ok? ==>
            var sv := ValuesOf(values, valueList).value;
            |sv| == |values.items| && forall i :: 0 <= i < |sv| ==> sv[i] == values.items[i].s)
    ensures values.Str? && J.Lookup(valueList, values.s).None? ==>
      ValuesOf(values, valueList) == Panic(MissingValueList(values.s))
    ensures values.Str? && J.Lookup(valueList, values.s).Some? ==>
      var named := J.Lookup(valueList, values.s).value;
      && (!named.Arr? ==> ValuesOf(values, valueList) == Fail)
      && (named.Arr? ==>
            (ValuesOf(values, valueList).Ok? <==> AllStrings(named.items))
            && (!AllStrings(named.items) ==> ValuesOf(values, valueList) == Fail)
            && (ValuesOf(values, valueList).Ok? ==>
                  var sv := ValuesOf(values, valueList).value;
                  |sv| == |named.items| && forall i :: 0 <= i < |sv| ==> sv[i] == named.items[i].s))
  {
    match values
    case Arr(xs) => StringListSpec(xs);
    case Str(n) =>
      var named := J.Lookup(valueList, n);
      if named.Some? && named.value.Arr? {
        StringListSpec(named.value.items);
      }
    case _ =>
  }

  /** A path-like property's suggested values are those its `values` field resolves to. */
  lemma NewPropertySuggestedValues(name: string, entry: J.Json, valueList: seq<(string, J.Json)>)
    requires J.Get(entry, "type").Str? && J.Get(entry, "type").s in PathTypes
    requires J.Get(entry, "help").Str? && J.Get(entry, "changeable").Str? && J.Get(entry, "default").Str?
    ensures var r := PropertyOf(name, entry, valueList);
      var v := ValuesOf(J.Get(entry, "values"), valueList);
      && (r.Ok? <==> v.Ok?)
      && (r.Ok? ==> r.value.suggestedValues == v.value)
      && (!r.Ok? ==> SameFailure(r, v))
  {
  }

  // ---------------------------------------------------------------------
  // Sections

  /**
    The first failure among `outs`, or all their values in order: how a
    loop that stops at the first `?` or panic collects results.
   */
  function Collect<T>(outs: seq<Outcome<T>>): Outcome<seq<T>> {
    if outs == [] then Ok([])
    else
      match Collect(outs[..|outs| - 1])
      case Fail => Fail
      case Panic(why) => Panic(why)
      case Ok(vs) =>
        match outs[|outs| - 1]
        case Ok(v) => Ok(vs + [v])
        case Fail => Fail
        case Panic(why) => Panic(why)
  }

  lemma {:induction false} CollectSpec<T>(outs: seq<Outcome<T>>)
    ensures Collect(outs).Ok? <==> forall i :: 0 <= i < |outs| ==> outs[i].Ok?
    ensures Collect(outs).Ok? ==>
      |Collect(outs).value| == |outs| && forall i :: 0 <= i < |outs| ==> Collect(outs).value[i] == outs[i].value
    ensures !Collect(outs).Ok? ==>
      exists i :: 0 <= i < |outs| && SameFailure(Collect(outs), outs[i]) && forall j :: 0 <= j < i ==> outs[j].Ok?
  {
    if outs != [] {
      var n := |outs| - 1;
      var init := outs[..n];
      CollectSpec(init);
      assert forall i :: 0 <= i < n ==> init[i] == outs[i];
      if !Collect(init).Ok? {
        var i :| 0 <= i < n && SameFailure(Collect(init), init[i]) && forall j :: 0 <= j < i ==> init[j].Ok?;
        assert SameFailure(Collect(outs), outs[i]);
      } else if !outs[n].Ok? {
        assert SameFailure(Collect(outs), outs[n]);
      }
    }
  }

  /** Once a prefix fails, the whole sequence fails the same way. */
  lemma {:induction false} CollectPrefixFailure<T>(outs: seq<Outcome<T>>, k: nat)
    requires k <= |outs|
    requires !Collect(outs[..k]).Ok?
    ensures Collect(outs) == Collect(outs[..k])
    decreases |outs| - k
  {
    if k < |outs| {
      assert outs[..k + 1][..k] == outs[..k];
      CollectPrefixFailure(outs, k + 1);
    } else {
      assert outs[..k] == outs;
    }
  }

  /** The outcome of `Property::new` for each schema entry, in order. */
  function PropertyOutcomes(entries: seq<(string, J.Json)>, valueList: seq<(string, J.Json)>): (outs: seq<Outcome<Property>>)
    ensures |outs| == |entries|
    ensures forall i :: 0 <= i < |entries| ==> outs[i] == PropertyOf(entries[i].0, entries[i].1, valueList)
  {
    seq(|entries|, i requires 0 <= i < |entries| => PropertyOf(entries[i].0, entries[i].1, valueList))
  }

  /**
    The properties of a `property` section, one per entry in entry order;
    the first entry that does not yield a property decides the outcome.
   */
  function PropertiesOf(entries: seq<(string, J.Json)>, valueList: seq<(string, J.Json)>): Outcome<seq<Property>> {
    Collect(PropertyOutcomes(entries, valueList))
  }

  /** `Section::new`: the section named `name` described by the schema entry `entry`. */
  function SectionOf(name: string, entry: J.Json, valueList: seq<(string, J.Json)>): Outcome<Section> {
    match J.AsStr(J.Get(entry, "type"))
    case None => Fail
    case Some(t) =>
      if t == "property" then
        match J.AsObject(J.Get(entry, "properties"))
        case None => Fail
        case Some(entries) =>
          match PropertiesOf(entries, valueList)
          case Ok(ps) => Ok(Section(name, Properties(ps)))
          case Fail => Fail
          case Panic(why) => Panic(why)
      else if t == "line" then Ok(Section(name, Lines([])))
      else Panic(UnknownSectionType(t))
  }

  /** A section of each type, or the failure that stopped it. */
  lemma NewSectionCases(name: string, entry: J.Json, valueList: seq<(string, J.Json)>)
    ensures var r := SectionOf(name, entry, valueList);
      var t := J.Get(entry, "type");
      && (!t.Str? ==> r == Fail)
      && (t == J.Str("line") ==> r == Ok(Section(name, Lines([]))))
      && (t.Str? && t.s != "line" && t.s != "property" ==> r == Panic(UnknownSectionType(t.s)))
      && (t == J.Str("property") && !J.Get(entry, "properties").Obj? ==> r == Fail)
      && (r.Ok? ==> r.value.name == name)
  {
  }

  /**
    A `property` section holds exactly one property per schema entry, in
    entry order, and fails with the first entry that fails.
   */
  lemma NewPropertySection(name: string, entry: J.Json, valueList: seq<(string, J.Json)>)
    requires J.Get(entry, "type") == J.Str("property")
    requires J.Get(entry, "properties").Obj?
    ensures var r := SectionOf(name, entry, valueList);
      var entries := J.Get(entry, "properties").entries;
      && (r.Ok? <==> forall i :: 0 <= i < |entries| ==> PropertyOf(entries[i].0, entries[i].1, valueList).Ok?)
      && (r.Ok? ==>
            r.value.sectionType.Properties?
            && |r.value.sectionType.props| == |entries|
            && forall i :: 0 <= i < |entries| ==>
                 r.value.sectionType.props[i] == PropertyOf(entries[i].0, entries[i].1, valueList).value)
      && (!r.Ok? ==>
            exists i :: 0 <= i < |entries|
              && SameFailure(r, PropertyOf(entries[i].0, entries[i].1, valueList))
              && forall j :: 0 <= j < i ==> PropertyOf(entries[j].0, entries[j].1, valueList).Ok?)
  {
    CollectSpec(PropertyOutcomes(J.Get(entry, "properties").entries, valueList));
  }

  // ---------------------------------------------------------------------
  // The constructors as the source writes them

  /** The push loop over a list of JSON values, stopping at the first non-string. */
  method PushStrings(xs: seq<J.Json>) returns (r: Option<seq<string>>)
    ensures r == StringList(xs)
  {
    var pushed: seq<string> := [];
    var i := 0;
    while i < |xs|
      invariant 0 <= i <= |xs|
      invariant StringList(xs[..i]) == Some(pushed)
    {
      assert xs[..i + 1][..i] == xs[..i];
      if !xs[i].Str? {
        StringListSpec(xs);
        return None;
      }
      pushed := pushed + [xs[i].s];
      i := i + 1;
    }
    assert xs[..i] == xs;
    return Some(pushed);
  }

  /** The `values` match of `Property::new` for a path-like property. */
  method ResolveValues(values: J.Json, valueList: seq<(string, J.Json)>) returns (r: Outcome<seq<string>>)
    ensures r == ValuesOf(values, valueList)
  {
    match values {
      case Str(listName) =>
        var named := J.Lookup(valueList, listName);
        if named.None? { return Panic(MissingValueList(listName)); }
        var xs := J.AsArray(named.value);
        if xs.None? { return Fail; }
        var pushed := PushStrings(xs.value);
        r := FromOption(pushed);
      case Arr(xs) =>
        var pushed := PushStrings(xs);
        r := FromOption(pushed);
      case Null =>
        r := Ok([]);
      case _ =>
        r := Panic(BadValuesShape);
    }
  }

  /** `Property::new`. */
  method NewProperty(name: string, entry: J.Json, valueList: seq<(string, J.Json)>) returns (r: Outcome<Property>)
    ensures r == PropertyOf(name, entry, valueList)
  {
    var propType := J.AsStr(J.Get(entry, "type"));
    if propType.None? { return Fail; }
    var help := J.AsStr(J.Get(entry, "help"));
    if help.None? { return Fail; }
    var changeableName := J.AsStr(J.Get(entry, "changeable"));
    if changeableName.None? { return Fail; }
    var changeable := ChangeableOf(changeableName.value);

    var value: PropertyValue;
    var suggested: seq<string> := [];
    var min: int, max: int;
    var ty := propType.value;
    if ty == "path" || ty == "string" || ty == "multi" {
      var d := J.AsStr(J.Get(entry, "default"));
      if d.None? { return Fail; }
      value := Path(d.value);
      min, max := 0, 0;
      var resolved := ResolveValues(J.Get(entry, "values"), valueList);
      if resolved.Fail? { return Fail; }
      if resolved.Panic? { return Panic(resolved.reason); }
      suggested := resolved.value;
    } else if ty == "int" {
      var d := J.AsI64(J.Get(entry, "default"));
      if d.None? { return Fail; }
      value := Int(d.value);
      var bounds := J.AsArray(J.Get(entry, "values"));
      if bounds.None? { return Fail; }
      if |bounds.value| == 0 { return Panic(BoundsIndex); }
      var lo := J.AsI64(bounds.value[0]);
      if lo.None? { return Fail; }
      if |bounds.value| == 1 { return Panic(BoundsIndex); }
      var hi := J.AsI64(bounds.value[1]);
      if hi.None? { return Fail; }
      min, max := lo.value, hi.value;
    } else if ty == "bool" {
      var d := J.AsBool(J.Get(entry, "default"));
      if d.None? { return Fail; }
      value := Bool(d.value);
      min, max := 0, 0;
    } else {
      return Panic(UnknownPropertyType(ty));
    }
    r := Ok(Property(name, value, value, suggested, changeable, help.value, min, max));
  }

  /** `Section::new`. */
  method NewSection(name: string, entry: J.Json, valueList: seq<(string, J.Json)>) returns (r: Outcome<Section>)
    ensures r == SectionOf(name, entry, valueList)
  {
    var t := J.AsStr(J.Get(entry, "type"));
    if t.None? { return Fail; }
    if t.value == "property" {
      var properties := J.AsObject(J.Get(entry, "properties"));
      if properties.None? { return Fail; }
      var entries := properties.value;
      var props: seq<Property> := [];
      ghost var outs := PropertyOutcomes(entries, valueList);
      var i := 0;
      while i < |entries|
        invariant 0 <= i <= |entries|
        invariant Collect(outs[..i]) == Ok(props)
      {
        assert outs[..i + 1][..i] == outs[..i];
        var p := NewProperty(entries[i].0, entries[i].1, valueList);
        if !p.Ok? {
          CollectPrefixFailure(outs, i + 1);
          return if p.Fail? then Fail else Panic(p.reason);
        }
        props := props + [p.value];
        i := i + 1;
      }
      assert outs[..i] == outs;
      assert entries[..i] == entries;
      r := Ok(Section(name, Properties(props)));
    } else if t.value == "line" {
      r := Ok(Section(name, Lines([])));
    } else {
      r := Panic(UnknownSectionType(t.value));
    }
  }
}
