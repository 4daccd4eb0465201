/**
 * The notification store: three maps, `loading`, `success` and `warning`, from an
 * identifier (conventionally a request URL) to a display record, and the three
 * toggles that overwrite one entry of one map.
 */
module Message {
  import opened Wrappers
  import opened Js

  /**
   * A display record. `close` is `None` in a loading record, which has no such
   * field. A success or warning toggle first writes `text` as `Null`, then the
   * assembled text; in this model that second write always happens.
   */
  datatype Record = Record(display: Scalar, close: Option<Scalar>, icon: Scalar, text: Scalar)

  /**
   * The options object handed to a toggle. A field left out is `Undefined`, which
   * is exactly when a destructuring default applies.
   */
  datatype Options = Options(display: Scalar, close: Scalar, icon: Scalar, text: Text, prefix: Scalar, suffix: Scalar)

  /** The options object of a call that passes none (`= {}`). */
  function Omitted(): Options
  {
    Options(Undefined, Undefined, Undefined, Plain(Undefined), Undefined, Undefined)
  }

  /** A destructuring default: `fallback` replaces `undefined` only. */
  function OrElse(v: Scalar, fallback: Scalar): Scalar
  {
    if v.Undefined? then fallback else v
  }

  /** The `text = null` default. */
  function TextOrNull(t: Text): Text
  {
    if t == Plain(Undefined) then Plain(Null) else t
  }

  function Prefix(o: Options): string
  {
    Render(OrElse(o.prefix, Str("")))
  }

  function Suffix(o: Options): string
  {
    Render(OrElse(o.suffix, Str("")))
  }

  /** What one array element adds to the assembled text. */
  function Piece(item: Item, prefix: string, suffix: string): string
  {
    if Truthy(item.msg) then prefix + Render(item.msg) + suffix else ""
  }

  /** The text a success or warning toggle assembles from an array, element by element. */
  function Joined(items: seq<Item>, prefix: string, suffix: string): string
  {
    if items == [] then "" else Piece(items[0], prefix, suffix) + Joined(items[1..], prefix, suffix)
  }

  /** The rendered messages of the elements whose `msg` is truthy, in order. */
  function Kept(items: seq<Item>): seq<string>
  {
    if items == [] then []
    else if Truthy(items[0].msg) then [Render(items[0].msg)] + Kept(items[1..])
    else Kept(items[1..])
  }

  /** Each message wrapped in `prefix` and `suffix`, concatenated in order. */
  function Decorated(ms: seq<string>, prefix: string, suffix: string): string
  {
    if ms == [] then "" else prefix + ms[0] + suffix + Decorated(ms[1..], prefix, suffix)
  }

  /** Assembling the text of a concatenation is concatenating the assembled texts. */
  lemma {:induction false} JoinedAppend(a: seq<Item>, b: seq<Item>, prefix: string, suffix: string)
    ensures Joined(a + b, prefix, suffix) == Joined(a, prefix, suffix) + Joined(b, prefix, suffix)
  {
    if a == [] {
      assert a + b == b;
    } else {
      assert (a + b)[1..] == a[1..] + b;
      JoinedAppend(a[1..], b, prefix, suffix);
    }
  }

  /**
   * The assembled text is the in-order concatenation of `prefix + msg + suffix`
   * over the elements whose `msg` is truthy.
   */
  lemma {:induction false} JoinedIsDecoratedKept(items: seq<Item>, prefix: string, suffix: string)
    ensures Joined(items, prefix, suffix) == Decorated(Kept(items), prefix, suffix)
  {
    if items != [] {
      JoinedIsDecoratedKept(items[1..], prefix, suffix);
      if Truthy(items[0].msg) {
        assert ([Render(items[0].msg)] + Kept(items[1..]))[1..] == Kept(items[1..]);
      }
    }
  }

  /** A one-element array assembles to that element's piece. */
  lemma JoinedSingleton(x: Item, prefix: string, suffix: string)
    ensures Joined([x], prefix, suffix) == Piece(x, prefix, suffix)
  {
    assert [x][1..] == [];
  }

  /** An element without a truthy `msg` contributes nothing, not even the decoration. */
  lemma SkipsSilent(a: seq<Item>, x: Item, b: seq<Item>, prefix: string, suffix: string)
    requires !Truthy(x.msg)
    ensures Joined(a + [x] + b, prefix, suffix) == Joined(a + b, prefix, suffix)
  {
    var ja, jb := Joined(a, prefix, suffix), Joined(b, prefix, suffix);
    JoinedSingleton(x, prefix, suffix);
    JoinedAppend(a, [x], prefix, suffix);
    assert Joined(a + [x], prefix, suffix) == ja + "";
    assert ja + "" == ja;
    JoinedAppend(a + [x], b, prefix, suffix);
    JoinedAppend(a, b, prefix, suffix);
  }

  /** `[{msg:'a'}, {}, {msg:'b'}]` with `'['` and `']'` gives `'[a][b]'`. */
  lemma BracketExample()
    ensures Joined([Item(Str("a")), Item(Undefined), Item(Str("b"))], "[", "]") == "[a][b]"
  {
    var items := [Item(Str("a")), Item(Undefined), Item(Str("b"))];
    assert items[1..][1..][1..] == [];
  }

  /** The `for...of` loop of the success and warning toggles. */
  method AssembleText(items: seq<Item>, prefix: string, suffix: string) returns (newText: string)
    ensures newText == Joined(items, prefix, suffix)
  {
    newText := "";
    for i := 0 to |items|
      invariant newText == Joined(items[..i], prefix, suffix)
    {
      var msg := items[i];
      newText := newText + (if Truthy(msg.msg) then prefix + Render(msg.msg) + suffix else "");
      assert items[..i + 1] == items[..i] + [msg];
      JoinedAppend(items[..i], [msg], prefix, suffix);
      JoinedSingleton(msg, prefix, suffix);
    }
    assert items[..|items|] == items;
  }

  /** Text of a loading record: always the scalar form. */
  function LoadingText(o: Options): string
  {
    Prefix(o) + RenderText(TextOrNull(o.text)) + Suffix(o)
  }

  /** Text of a success or warning record. */
  function ToastText(o: Options): string
  {
    match TextOrNull(o.text)
    case List(items) => Joined(items, Prefix(o), Suffix(o))
    case Plain(v) => Prefix(o) + Render(v) + Suffix(o)
  }

  /** The record a loading toggle stores. */
  function LoadingRecord(o: Options): Record
  {
    Record(OrElse(o.display, Bool(true)), None, OrElse(o.icon, Null), Str(LoadingText(o)))
  }

  /** The record a success or warning toggle stores. */
  function ToastRecord(o: Options): Record
  {
    Record(OrElse(o.display, Bool(true)), Some(OrElse(o.close, Null)), OrElse(o.icon, Null), Str(ToastText(o)))
  }

  /** Omitted options default to display true, close/icon null, text null, empty decoration. */
  lemma OmittedDefaults()
    ensures LoadingRecord(Omitted()) == Record(Bool(true), None, Null, Str("null"))
    ensures ToastRecord(Omitted()) == Record(Bool(true), Some(Null), Null, Str("null"))
  {
    assert RenderText(TextOrNull(Omitted().text)) == "null";
    assert "" + "null" + "" == "null";
  }

  /** A loading record keeps `display` and `icon` as given and has no `close` field. */
  lemma LoadingRecordShape(o: Options)
    requires !o.display.Undefined? && !o.icon.Undefined?
    ensures LoadingRecord(o).display == o.display && LoadingRecord(o).icon == o.icon
    ensures LoadingRecord(o).close.None?
    ensures o.text.Plain? ==> LoadingRecord(o).text == Str(Prefix(o) + Render(OrElse(o.text.value, Null)) + Suffix(o))
  {
  }

  /** For an array `text`, a success or warning record holds the decorated truthy messages. */
  lemma ToastTextOfList(o: Options)
    requires o.text.List?
    ensures ToastRecord(o).text == Str(Decorated(Kept(o.text.items), Prefix(o), Suffix(o)))
    ensures o.text.items == [] ==> ToastRecord(o).text == Str("")
  {
    JoinedIsDecoratedKept(o.text.items, Prefix(o), Suffix(o));
  }

  /** For a scalar `text`, a success or warning record holds `prefix + text + suffix`. */
  lemma ToastTextOfScalar(o: Options)
    requires o.text.Plain?
    ensures ToastRecord(o).text == Str(Prefix(o) + Render(OrElse(o.text.value, Null)) + Suffix(o))
  {
  }

  /** The three maps at one moment. */
  datatype Snapshot = Snapshot(loading: map<string, Record>, success: map<string, Record>, warning: map<string, Record>)

  /** The store. */
  class Store {
    var loading: map<string, Record>
    var success: map<string, Record>
    var warning: map<string, Record>

    constructor ()
      ensures loading == map[] && success == map[] && warning == map[]
    {
      loading, success, warning := map[], map[], map[];
    }

    function State(): Snapshot
      reads this
    {
      Snapshot(loading, success, warning)
    }

    /** Overwrites `loading[id]`; nothing else changes. */
    method ToggleLoading(id: string, o: Options)
      modifies this
      ensures loading == old(loading)[id := LoadingRecord(o)]
      ensures success == old(success) && warning == old(warning)
    {
      var display := OrElse(o.display, Bool(true));
      var text := TextOrNull(o.text);
      var icon := OrElse(o.icon, Null);
      var prefix, suffix := Prefix(o), Suffix(o);
      loading := loading[id := Record(display, None, icon, Str(prefix + RenderText(text) + suffix))];
    }

    /** Overwrites `success[id]`; nothing else changes. */
    method ToggleSuccess(id: string, o: Options)
      modifies this
      ensures success == old(success)[id := ToastRecord(o)]
      ensures loading == old(loading) && warning == old(warning)
    {
      var display := OrElse(o.display, Bool(true));
      var close := OrElse(o.close, Null);
      var icon := OrElse(o.icon, Null);
      var text := TextOrNull(o.text);
      var prefix, suffix := Prefix(o), Suffix(o);
      success := success[id := Record(display, Some(close), icon, Null)];
      if text.List? {
        var newText := AssembleText(text.items, prefix, suffix);
        success := success[id := success[id].(text := Str(newText))];
      } else {
        success := success[id := success[id].(text := Str(prefix + Render(text.value) + suffix))];
      }
    }

    /** Overwrites `warning[id]` with the record `ToggleSuccess` would store; nothing else changes. */
    method ToggleWarning(id: string, o: Options)
      modifies this
      ensures warning == old(warning)[id := ToastRecord(o)]
      ensures loading == old(loading) && success == old(success)
    {
      var display := OrElse(o.display, Bool(true));
      var close := OrElse(o.close, Null);
      var icon := OrElse(o.icon, Null);
      var text := TextOrNull(o.text);
      var prefix, suffix := Prefix(o), Suffix(o);
      warning := warning[id := Record(display, Some(close), icon, Null)];
      if text.List? {
        var newText := AssembleText(text.items, prefix, suffix);
        warning := warning[id := warning[id].(text := Str(newText))];
      } else {
        warning := warning[id := warning[id].(text := Str(prefix + Render(text.value) + suffix))];
      }
    }
  }

  /** A second toggle of the same identifier leaves nothing of the first record. */
  method OverwriteScenario(s: Store)
    modifies s
    ensures s.success == old(s.success)["/a" := Record(Bool(true), Some(Null), Null, Str("null"))]
    ensures s.loading == old(s.loading) && s.warning == old(s.warning)
  {
    s.ToggleSuccess("/a", Options(Bool(false), Bool(true), Str("x"), Plain(Str("one")), Undefined, Undefined));
    s.ToggleSuccess("/a", Omitted());
    OmittedDefaults();
  }
}
