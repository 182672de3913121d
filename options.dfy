/** Option resolution: `parseOptions` of index.js turns the caller's option
    bag, with its aliases, into one record with defaults. */
module Options {
  import opened Values

  /** The caller's option object: a key that is absent reads as `undefined`. */
  type Bag = map<string, JsValue>

  function Get(bag: Bag, key: string): JsValue {
    if key in bag then bag[key] else Undefined
  }

  /** The resolved options. Fields hold whatever JavaScript value resolution
      produced; `parseOptions` does not coerce or validate anything. */
  datatype Config = Config(
    font: JsValue,
    textAlign: JsValue,
    textColor: JsValue,
    backgroundColor: JsValue,
    lineSpacing: JsValue,
    strokeWidth: JsValue,
    strokeColor: JsValue,
    paddingLeft: JsValue,
    paddingTop: JsValue,
    paddingRight: JsValue,
    paddingBottom: JsValue,
    borderLeftWidth: JsValue,
    borderTopWidth: JsValue,
    borderBottomWidth: JsValue,
    borderRightWidth: JsValue,
    borderColor: JsValue,
    localFontName: JsValue,
    localFontPath: JsValue,
    output: JsValue,
    imageSmoothingEnabled: JsValue)
  {
    /** Every field that the layout does arithmetic on holds a number. */
    predicate Numeric() {
      lineSpacing.Num? && strokeWidth.Num? &&
      paddingLeft.Num? && paddingTop.Num? && paddingRight.Num? && paddingBottom.Num? &&
      borderLeftWidth.Num? && borderTopWidth.Num? && borderRightWidth.Num? && borderBottomWidth.Num?
    }
  }

  datatype Side = Left | Top | Right | Bottom

  function PaddingKey(side: Side): string {
    match side
    case Left => "paddingLeft"
    case Top => "paddingTop"
    case Right => "paddingRight"
    case Bottom => "paddingBottom"
  }

  function BorderKey(side: Side): string {
    match side
    case Left => "borderLeftWidth"
    case Top => "borderTopWidth"
    case Right => "borderRightWidth"
    case Bottom => "borderBottomWidth"
  }

  function PaddingOn(c: Config, side: Side): JsValue {
    match side
    case Left => c.paddingLeft
    case Top => c.paddingTop
    case Right => c.paddingRight
    case Bottom => c.paddingBottom
  }

  function BorderOn(c: Config, side: Side): JsValue {
    match side
    case Left => c.borderLeftWidth
    case Top => c.borderTopWidth
    case Right => c.borderRightWidth
    case Bottom => c.borderBottomWidth
  }

  /** The keys `parseOptions` reads; any other key of the bag is ignored. */
  const ReadKeys: set<string> := {
    "font", "textAlign", "textColor", "color", "bgColor", "backgroundColor",
    "lineSpacing", "strokeWidth", "strokeColor", "padding",
    "paddingLeft", "paddingTop", "paddingRight", "paddingBottom",
    "borderWidth", "borderLeftWidth", "borderTopWidth", "borderBottomWidth", "borderRightWidth",
    "borderColor", "localFontName", "localFontPath", "output", "imageSmoothingEnabled"}

  /** The keys whose values end up in the numeric fields of the record. */
  const NumericKeys: set<string> := {
    "lineSpacing", "strokeWidth", "padding",
    "paddingLeft", "paddingTop", "paddingRight", "paddingBottom",
    "borderWidth", "borderLeftWidth", "borderTopWidth", "borderBottomWidth", "borderRightWidth"}

  /** `parseOptions(options)`: each field is resolved by `OrOr` from its
      own key, then its alias, then its literal default. */
  function ParseOptions(bag: Bag): Config
  {
    Config(
      font := OrOr([Get(bag, "font"), Str("30px sans-serif")]),
      textAlign := OrOr([Get(bag, "textAlign"), Str("left")]),
      textColor := OrOr([Get(bag, "textColor"), Get(bag, "color"), Str("black")]),
      backgroundColor := OrOr([Get(bag, "bgColor"), Get(bag, "backgroundColor"), Null]),
      lineSpacing := OrOr([Get(bag, "lineSpacing"), Num(0.0)]),
      strokeWidth := OrOr([Get(bag, "strokeWidth"), Num(0.0)]),
      strokeColor := OrOr([Get(bag, "strokeColor"), Str("white")]),
      paddingLeft := OrOr([Get(bag, "paddingLeft"), Get(bag, "padding"), Num(0.0)]),
      paddingTop := OrOr([Get(bag, "paddingTop"), Get(bag, "padding"), Num(0.0)]),
      paddingRight := OrOr([Get(bag, "paddingRight"), Get(bag, "padding"), Num(0.0)]),
      paddingBottom := OrOr([Get(bag, "paddingBottom"), Get(bag, "padding"), Num(0.0)]),
      borderLeftWidth := OrOr([Get(bag, "borderLeftWidth"), Get(bag, "borderWidth"), Num(0.0)]),
      borderTopWidth := OrOr([Get(bag, "borderTopWidth"), Get(bag, "borderWidth"), Num(0.0)]),
      borderBottomWidth := OrOr([Get(bag, "borderBottomWidth"), Get(bag, "borderWidth"), Num(0.0)]),
      borderRightWidth := OrOr([Get(bag, "borderRightWidth"), Get(bag, "borderWidth"), Num(0.0)]),
      borderColor := OrOr([Get(bag, "borderColor"), Str("black")]),
      localFontName := OrOr([Get(bag, "localFontName"), Null]),
      localFontPath := OrOr([Get(bag, "localFontPath"), Null]),
      output := OrOr([Get(bag, "output"), Str("buffer")]),
      imageSmoothingEnabled := OrOr([Get(bag, "imageSmoothingEnabled"), Bool(false)]))
  }

  /** The value a field resolves to when `first` is tried before `last`,
      written without `OrOr`. */
  function Fallback(first: JsValue, last: JsValue): JsValue {
    if Defined(first) then first else last
  }

  /** The resolution table of `parseOptions`, stated field by field with
      explicit fallbacks: the reference `ParseOptions` is proved equal to. */
  function ResolutionTable(bag: Bag): Config {
    Config(
      font := Fallback(Get(bag, "font"), Str("30px sans-serif")),
      textAlign := Fallback(Get(bag, "textAlign"), Str("left")),
      textColor := Fallback(Get(bag, "textColor"), Fallback(Get(bag, "color"), Str("black"))),
      backgroundColor := Fallback(Get(bag, "bgColor"), Fallback(Get(bag, "backgroundColor"), Null)),
      lineSpacing := Fallback(Get(bag, "lineSpacing"), Num(0.0)),
      strokeWidth := Fallback(Get(bag, "strokeWidth"), Num(0.0)),
      strokeColor := Fallback(Get(bag, "strokeColor"), Str("white")),
      paddingLeft := Fallback(Get(bag, "paddingLeft"), Fallback(Get(bag, "padding"), Num(0.0))),
      paddingTop := Fallback(Get(bag, "paddingTop"), Fallback(Get(bag, "padding"), Num(0.0))),
      paddingRight := Fallback(Get(bag, "paddingRight"), Fallback(Get(bag, "padding"), Num(0.0))),
      paddingBottom := Fallback(Get(bag, "paddingBottom"), Fallback(Get(bag, "padding"), Num(0.0))),
      borderLeftWidth := Fallback(Get(bag, "borderLeftWidth"), Fallback(Get(bag, "borderWidth"), Num(0.0))),
      borderTopWidth := Fallback(Get(bag, "borderTopWidth"), Fallback(Get(bag, "borderWidth"), Num(0.0))),
      borderBottomWidth := Fallback(Get(bag, "borderBottomWidth"), Fallback(Get(bag, "borderWidth"), Num(0.0))),
      borderRightWidth := Fallback(Get(bag, "borderRightWidth"), Fallback(Get(bag, "borderWidth"), Num(0.0))),
      borderColor := Fallback(Get(bag, "borderColor"), Str("black")),
      localFontName := Fallback(Get(bag, "localFontName"), Null),
      localFontPath := Fallback(Get(bag, "localFontPath"), Null),
      output := Fallback(Get(bag, "output"), Str("buffer")),
      imageSmoothingEnabled := Fallback(Get(bag, "imageSmoothingEnabled"), Bool(false)))
  }

  /** `OrOr` on two candidates. */
  lemma {:induction false} TwoWay(args: seq<JsValue>)
    requires |args| == 2
    ensures OrOr(args) == Fallback(args[0], args[1])
  {
    if !Defined(args[0]) {
      assert NoneDefinedBefore(args, 1);
    }
  }

  /** `OrOr` on three candidates. */
  lemma {:induction false} ThreeWay(args: seq<JsValue>)
    requires |args| == 3
    ensures OrOr(args) == Fallback(args[0], Fallback(args[1], args[2]))
  {
    if !Defined(args[0]) && Defined(args[1]) {
      assert NoneDefinedBefore(args, 1);
    } else if !Defined(args[0]) && !Defined(args[1]) {
      assert NoneDefinedBefore(args, 2);
      if !Defined(args[2]) {
        assert NoneDefinedBefore(args, 3);
      }
    }
  }

  /** `parseOptions` resolves every field by the table: its own key first,
      then its alias (`color` after `textColor`, `backgroundColor` after
      `bgColor`, `padding` and `borderWidth` after each side), then the
      literal default. */
  lemma {:induction false} ResolvesByTable(bag: Bag)
    ensures ParseOptions(bag) == ResolutionTable(bag)
  {
    TwoWay([Get(bag, "font"), Str("30px sans-serif")]);
    TwoWay([Get(bag, "textAlign"), Str("left")]);
    ThreeWay([Get(bag, "textColor"), Get(bag, "color"), Str("black")]);
    ThreeWay([Get(bag, "bgColor"), Get(bag, "backgroundColor"), Null]);
    TwoWay([Get(bag, "lineSpacing"), Num(0.0)]);
    TwoWay([Get(bag, "strokeWidth"), Num(0.0)]);
    TwoWay([Get(bag, "strokeColor"), Str("white")]);
    ThreeWay([Get(bag, "paddingLeft"), Get(bag, "padding"), Num(0.0)]);
    ThreeWay([Get(bag, "paddingTop"), Get(bag, "padding"), Num(0.0)]);
    ThreeWay([Get(bag, "paddingRight"), Get(bag, "padding"), Num(0.0)]);
    ThreeWay([Get(bag, "paddingBottom"), Get(bag, "padding"), Num(0.0)]);
    ThreeWay([Get(bag, "borderLeftWidth"), Get(bag, "borderWidth"), Num(0.0)]);
    ThreeWay([Get(bag, "borderTopWidth"), Get(bag, "borderWidth"), Num(0.0)]);
    ThreeWay([Get(bag, "borderBottomWidth"), Get(bag, "borderWidth"), Num(0.0)]);
    ThreeWay([Get(bag, "borderRightWidth"), Get(bag, "borderWidth"), Num(0.0)]);
    TwoWay([Get(bag, "borderColor"), Str("black")]);
    TwoWay([Get(bag, "localFontName"), Null]);
    TwoWay([Get(bag, "localFontPath"), Null]);
    TwoWay([Get(bag, "output"), Str("buffer")]);
    TwoWay([Get(bag, "imageSmoothingEnabled"), Bool(false)]);
  }

  /** Each side's padding is its own key if defined, else the scalar
      `padding`, else 0; each border width likewise from `borderWidth`. */
  lemma {:induction false} SideResolution(bag: Bag, side: Side)
    ensures PaddingOn(ParseOptions(bag), side)
         == Fallback(Get(bag, PaddingKey(side)), Fallback(Get(bag, "padding"), Num(0.0)))
    ensures BorderOn(ParseOptions(bag), side)
         == Fallback(Get(bag, BorderKey(side)), Fallback(Get(bag, "borderWidth"), Num(0.0)))
  {
    ResolvesByTable(bag);
  }

  /** Every field with a literal default is defined after resolution. */
  lemma {:induction false} ResolvedFieldsDefined(bag: Bag)
    ensures var c := ParseOptions(bag);
      Defined(c.font) && Defined(c.textAlign) && Defined(c.textColor) &&
      Defined(c.lineSpacing) && Defined(c.strokeWidth) && Defined(c.strokeColor) &&
      Defined(c.borderColor) && Defined(c.output) && Defined(c.imageSmoothingEnabled)
    ensures var c := ParseOptions(bag);
      Defined(c.paddingLeft) && Defined(c.paddingTop) && Defined(c.paddingRight) && Defined(c.paddingBottom) &&
      Defined(c.borderLeftWidth) && Defined(c.borderTopWidth) && Defined(c.borderRightWidth) && Defined(c.borderBottomWidth)
  {
    ResolvesByTable(bag);
  }

  /** The background colour, font name and font path fall back to `null`:
      after resolution they are never `undefined`, and they are `null`
      exactly when no key for them holds a defined value. */
  lemma {:induction false} NullableFields(bag: Bag)
    ensures var c := ParseOptions(bag);
      !c.backgroundColor.Undefined? && !c.localFontName.Undefined? && !c.localFontPath.Undefined?
    ensures var c := ParseOptions(bag);
      (c.backgroundColor == Null <==> !Defined(Get(bag, "bgColor")) && !Defined(Get(bag, "backgroundColor"))) &&
      (c.localFontName == Null <==> !Defined(Get(bag, "localFontName"))) &&
      (c.localFontPath == Null <==> !Defined(Get(bag, "localFontPath")))
  {
    ResolvesByTable(bag);
  }

  /** With an empty option bag every field takes its literal default. */
  lemma {:induction false} Defaults()
    ensures ParseOptions(map[]) == Config(
      Str("30px sans-serif"), Str("left"), Str("black"), Null, Num(0.0), Num(0.0), Str("white"),
      Num(0.0), Num(0.0), Num(0.0), Num(0.0), Num(0.0), Num(0.0), Num(0.0), Num(0.0),
      Str("black"), Null, Null, Str("buffer"), Bool(false))
  {
    ResolvesByTable(map[]);
  }

  /** Keys `parseOptions` does not read (`width`, `height`, `minFontSize`,
      `verticalAlign`, ...) have no effect on the resolved options. */
  lemma {:induction false} UnreadKeysIgnored(bag: Bag, key: string, v: JsValue)
    requires key !in ReadKeys
    ensures ParseOptions(bag[key := v]) == ParseOptions(bag)
  {
    ResolvesByTable(bag);
    ResolvesByTable(bag[key := v]);
    assert forall k :: k in ReadKeys ==> Get(bag[key := v], k) == Get(bag, k);
  }

  /** A value that resolution leaves alone or replaces by a default. */
  predicate NumberOrAbsent(v: JsValue) {
    !Defined(v) || v.Num?
  }

  /** When each numeric key is absent, `undefined`, `null` or a number, the
      fields the layout computes with are numbers. */
  lemma {:induction false} NumericWhenNumbersGiven(bag: Bag)
    requires forall k :: k in NumericKeys ==> NumberOrAbsent(Get(bag, k))
    ensures ParseOptions(bag).Numeric()
  {
    ResolvesByTable(bag);
    assert NumberOrAbsent(Get(bag, "lineSpacing")) && NumberOrAbsent(Get(bag, "strokeWidth"));
    assert NumberOrAbsent(Get(bag, "padding")) && NumberOrAbsent(Get(bag, "borderWidth"));
    assert NumberOrAbsent(Get(bag, "paddingLeft")) && NumberOrAbsent(Get(bag, "paddingTop"));
    assert NumberOrAbsent(Get(bag, "paddingRight")) && NumberOrAbsent(Get(bag, "paddingBottom"));
    assert NumberOrAbsent(Get(bag, "borderLeftWidth")) && NumberOrAbsent(Get(bag, "borderTopWidth"));
    assert NumberOrAbsent(Get(bag, "borderRightWidth")) && NumberOrAbsent(Get(bag, "borderBottomWidth"));
  }
}
