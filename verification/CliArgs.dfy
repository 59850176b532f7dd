/** The two command-line parsers: the strict one of main.ts and the lenient one of commands/args.ts. */
module CliArgs {
  import opened Base
  import opened Text

  datatype Arg = One(value: string) | Many(values: seq<string>)

  type Args = map<string, Arg>

  const POSITIONALS: string := "_"
  const EMPTY: Args := map[POSITIONALS := Many([])]

  function AddArg(args: Args, key: string, value: string): Args {
    if key !in args then args[key := One(value)]
    else match args[key]
      case Many(values) => args[key := Many(values + [value])]
      case One(first) => args[key := Many([first, value])]
  }

  /** args._.push(token): an error when a flag has replaced the list of positionals. */
  function PushPositional(args: Args, token: string): Result<Args> {
    if POSITIONALS in args && args[POSITIONALS].Many? then
      Ok(args[POSITIONALS := Many(args[POSITIONALS].values + [token])])
    else Err("args._.push is not a function")
  }

  predicate IsFlag(token: string) { StartsWith(token, "--") }

  function Strict(args: Args, argv: seq<string>): Result<Args>
    decreases |argv|
  {
    if argv == [] then Ok(args)
    else if !IsFlag(argv[0]) then
      match PushPositional(args, argv[0])
      case Ok(args') => Strict(args', argv[1..])
      case Err(e) => Err(e)
    else if |argv| == 1 || IsFlag(argv[1]) then Err("missing value for " + argv[0])
    else Strict(AddArg(args, argv[0][2..], argv[1]), argv[2..])
  }

  function Lenient(args: Args, argv: seq<string>): Result<Args>
    decreases |argv|
  {
    if argv == [] then Ok(args)
    else if !IsFlag(argv[0]) then
      match PushPositional(args, argv[0])
      case Ok(args') => Lenient(args', argv[1..])
      case Err(e) => Err(e)
    else
      var key := argv[0][2..];
      if key == "json" || |argv| == 1 || IsFlag(argv[1]) then Lenient(args[key := One("true")], argv[1..])
      else Lenient(AddArg(args, key, argv[1]), argv[2..])
  }

  method ParseStrict(argv: seq<string>) returns (r: Result<Args>)
    ensures r == Strict(EMPTY, argv)
  {
    var args := EMPTY;
    var index := 0;
    while index < |argv|
      invariant index <= |argv|
      invariant Strict(args, argv[index..]) == Strict(EMPTY, argv)
    {
      var token := argv[index];
      if !IsFlag(token) {
        var pushed := PushPositional(args, token);
        if pushed.Err? {
          return Err(pushed.error);
        }
        args := pushed.value;
        index := index + 1;
        continue;
      }
      if index + 1 == |argv| || IsFlag(argv[index + 1]) {
        return Err("missing value for " + token);
      }
      args := AddArg(args, token[2..], argv[index + 1]);
      index := index + 2;
    }
    r := Ok(args);
  }

  method ParseLenient(argv: seq<string>) returns (r: Result<Args>)
    ensures r == Lenient(EMPTY, argv)
  {
    var args := EMPTY;
    var index := 0;
    while index < |argv|
      invariant index <= |argv|
      invariant Lenient(args, argv[index..]) == Lenient(EMPTY, argv)
    {
      var token := argv[index];
      if !IsFlag(token) {
        var pushed := PushPositional(args, token);
        if pushed.Err? {
          return Err(pushed.error);
        }
        args := pushed.value;
        index := index + 1;
        continue;
      }
      var key := token[2..];
      if key == "json" || index + 1 == |argv| || IsFlag(argv[index + 1]) {
        args := args[key := One("true")];
        index := index + 1;
        continue;
      }
      args := AddArg(args, key, argv[index + 1]);
      index := index + 2;
    }
    r := Ok(args);
  }

  // ---- lookups ----

  function OptionalMany(args: Args, key: string): seq<string> {
    if key !in args then []
    else match args[key]
      case Many(values) => values
      case One(value) => [value]
  }

  function RequiredMany(args: Args, key: string): Result<seq<string>> {
    if OptionalMany(args, key) == [] then Err("missing --" + key) else Ok(OptionalMany(args, key))
  }

  function Required(args: Args, key: string): Result<string> {
    if key in args && args[key].One? then Ok(args[key].value) else Err("missing --" + key)
  }

  function Optional(args: Args, key: string): Result<Option<string>> {
    if key !in args then Ok(None)
    else match args[key]
      case Many(_) => Err("--" + key + " can only be provided once")
      case One(value) => Ok(Some(value))
  }

  // ---- rendering ----

  datatype Item = Positional(token: string) | Flag(key: string, value: string)

  function Render(items: seq<Item>): seq<string> {
    if items == [] then []
    else (match items[0]
          case Positional(token) => [token]
          case Flag(key, value) => ["--" + key, value]) + Render(items[1..])
  }

  /** Positionals are the values of `_`, which a flag `--_` may add to. */
  function KeyOf(item: Item): string {
    if item.Positional? then POSITIONALS else item.key
  }

  function ValueOf(item: Item): string {
    if item.Positional? then item.token else item.value
  }

  function ValuesOf(items: seq<Item>, key: string): seq<string> {
    if items == [] then []
    else (if KeyOf(items[0]) == key then [ValueOf(items[0])] else []) + ValuesOf(items[1..], key)
  }

  /** No positional or value looks like a flag. */
  predicate Renderable(item: Item) {
    !IsFlag(ValueOf(item))
  }

  /** Positionals are a list, and a key given several times is a list of at least two. */
  ghost predicate WellFormed(args: Args) {
    && POSITIONALS in args && args[POSITIONALS].Many?
    && forall key :: key in args && key != POSITIONALS && args[key].Many? ==> |args[key].values| >= 2
  }

  /** What parsing adds to args: each key's values, in order. */
  ghost predicate Extends(args: Args, items: seq<Item>, out: Args) {
    WellFormed(out) && forall key :: OptionalMany(out, key) == OptionalMany(args, key) + ValuesOf(items, key)
  }

  lemma FlagTokens(key: string)
    ensures IsFlag("--" + key) && ("--" + key)[2..] == key
  {
  }

  lemma OneItem(args: Args, item: Item, args': Args)
    requires WellFormed(args) && Renderable(item)
    requires args' == match item
                      case Positional(token) => args[POSITIONALS := Many(args[POSITIONALS].values + [token])]
                      case Flag(key, value) => AddArg(args, key, value)
    ensures Extends(args, [item], args')
  {
    assert [item][1..] == [];
    forall key ensures OptionalMany(args', key) == OptionalMany(args, key) + ValuesOf([item], key) {
    }
  }

  lemma ValuesThen(item: Item, rest: seq<Item>, key: string)
    ensures ValuesOf([item] + rest, key) == ValuesOf([item], key) + ValuesOf(rest, key)
  {
    assert ([item] + rest)[1..] == rest && [item][1..] == [];
  }

  lemma Associative(a: seq<string>, b: seq<string>, c: seq<string>)
    ensures (a + b) + c == a + (b + c)
  {
  }

  lemma ExtendsThen(args: Args, item: Item, mid: Args, rest: seq<Item>, out: Args)
    requires Extends(args, [item], mid) && Extends(mid, rest, out)
    ensures Extends(args, [item] + rest, out)
  {
    forall key
      ensures OptionalMany(out, key) == OptionalMany(args, key) + ValuesOf([item] + rest, key)
    {
      ValuesThen(item, rest, key);
      Associative(OptionalMany(args, key), ValuesOf([item], key), ValuesOf(rest, key));
    }
  }

  lemma {:induction false} StrictReadsRendered(args: Args, items: seq<Item>)
    requires WellFormed(args) && forall item :: item in items ==> Renderable(item)
    ensures Strict(args, Render(items)).Ok? && Extends(args, items, Strict(args, Render(items)).value)
    decreases items
  {
    if items != [] {
      var argv, rest := Render(items), Render(items[1..]);
      var args' := match items[0]
        case Positional(token) => args[POSITIONALS := Many(args[POSITIONALS].values + [token])]
        case Flag(key, value) => AddArg(args, key, value);
      if items[0].Flag? {
        FlagTokens(items[0].key);
        assert argv[2..] == rest;
      } else {
        assert argv[1..] == rest;
      }
      assert items[0] in items;
      OneItem(args, items[0], args');
      StrictReadsRendered(args', items[1..]);
      ExtendsThen(args, items[0], args', items[1..], Strict(args', rest).value);
      assert [items[0]] + items[1..] == items;
    }
  }

  /** Rendering any list of flags and positionals and parsing it strictly gives everything back, in order. */
  lemma StrictRoundTrip(items: seq<Item>)
    requires forall item :: item in items ==> Renderable(item)
    ensures var r := Strict(EMPTY, Render(items));
            r.Ok? && forall key :: OptionalMany(r.value, key) == ValuesOf(items, key)
  {
    StrictReadsRendered(EMPTY, items);
    forall key
      ensures OptionalMany(Strict(EMPTY, Render(items)).value, key) == ValuesOf(items, key)
    {
      assert [] + ValuesOf(items, key) == ValuesOf(items, key);
    }
  }

  /** On a rendered list, `required` succeeds exactly for keys given once, `optional` for keys given at most once. */
  lemma LookupsCountValues(items: seq<Item>, key: string)
    requires forall item :: item in items ==> Renderable(item)
    requires key != POSITIONALS
    ensures Strict(EMPTY, Render(items)).Ok?
    ensures var args := Strict(EMPTY, Render(items)).value;
            var values := ValuesOf(items, key);
            && Required(args, key) == (if |values| == 1 then Ok(values[0]) else Err("missing --" + key))
            && (Optional(args, key).Ok? <==> |values| <= 1)
            && (|values| == 1 ==> Optional(args, key) == Ok(Some(values[0])))
            && (values == [] ==> Optional(args, key) == Ok(None))
            && (|values| > 1 ==> Optional(args, key) == Err("--" + key + " can only be provided once"))
            && (RequiredMany(args, key) == if values == [] then Err("missing --" + key) else Ok(values))
  {
    StrictRoundTrip(items);
    StrictReadsRendered(EMPTY, items);
    var args := Strict(EMPTY, Render(items)).value;
    assert OptionalMany(args, key) == ValuesOf(items, key);
  }

  // ---- what the strict parser rejects ----

  predicate HasPositionals(args: Args) { POSITIONALS in args && args[POSITIONALS].Many? }

  lemma AddKeepsPositionals(args: Args, key: string, value: string)
    requires HasPositionals(args)
    ensures HasPositionals(AddArg(args, key, value))
    ensures |AddArg(args, key, value)[POSITIONALS].values| == |args[POSITIONALS].values|
        + if key == POSITIONALS then 1 else 0
  {
  }

  lemma {:induction false} StrictOutcomeFrom(args: Args, argv: seq<string>)
      returns (items: seq<Item>, rest: seq<string>)
    requires HasPositionals(args)
    ensures argv == Render(items) + rest && forall item :: item in items ==> Renderable(item)
    ensures rest == [] ==> Strict(args, argv).Ok?
    ensures rest != [] ==>
              && IsFlag(rest[0]) && (|rest| == 1 || IsFlag(rest[1]))
              && Strict(args, argv) == Err("missing value for " + rest[0])
    decreases |argv|
  {
    if argv == [] {
      items, rest := [], [];
    } else if !IsFlag(argv[0]) {
      var more, left := StrictOutcomeFrom(PushPositional(args, argv[0]).value, argv[1..]);
      items, rest := [Positional(argv[0])] + more, left;
      assert items[1..] == more;
      assert argv == [argv[0]] + (Render(more) + left);
    } else if |argv| == 1 || IsFlag(argv[1]) {
      items, rest := [], argv;
    } else {
      AddKeepsPositionals(args, argv[0][2..], argv[1]);
      var more, left := StrictOutcomeFrom(AddArg(args, argv[0][2..], argv[1]), argv[2..]);
      items, rest := [Flag(argv[0][2..], argv[1])] + more, left;
      assert items[1..] == more;
      assert argv[0] == "--" + argv[0][2..];
      assert argv == [argv[0], argv[1]] + (Render(more) + left);
    }
  }

  /**
   * Every argument list starts with positionals and flags that have their values. The
   * strict parser accepts exactly those that hold nothing else, and gives each key its
   * values in order; otherwise it fails with the first flag that is followed by another
   * flag or by nothing.
   */
  lemma StrictOutcome(argv: seq<string>) returns (items: seq<Item>, rest: seq<string>)
    ensures argv == Render(items) + rest && forall item :: item in items ==> Renderable(item)
    ensures rest == [] ==>
              var r := Strict(EMPTY, argv); r.Ok? && forall key :: OptionalMany(r.value, key) == ValuesOf(items, key)
    ensures rest != [] ==>
              && IsFlag(rest[0]) && (|rest| == 1 || IsFlag(rest[1]))
              && Strict(EMPTY, argv) == Err("missing value for " + rest[0])
  {
    items, rest := StrictOutcomeFrom(EMPTY, argv);
    if rest == [] {
      assert argv == Render(items);
      StrictRoundTrip(items);
    }
  }

  // ---- what the lenient parser reads ----

  datatype Loose = Plain(token: string) | Pair(key: string, value: string) | Bare(key: string)

  function RenderOne(item: Loose): seq<string> {
    match item
    case Plain(token) => [token]
    case Pair(key, value) => ["--" + key, value]
    case Bare(key) => ["--" + key]
  }

  function RenderLoose(items: seq<Loose>): seq<string> {
    if items == [] then [] else RenderOne(items[0]) + RenderLoose(items[1..])
  }

  /** A flag stands alone if it is `--json`, comes last, or is followed by another flag. */
  predicate WellRead(items: seq<Loose>) {
    items != [] ==>
      && WellRead(items[1..])
      && match items[0]
         case Plain(token) => !IsFlag(token)
         case Pair(key, value) => !IsFlag(value) && key != "json"
         case Bare(key) => key == "json" || |items| == 1 || !items[1].Plain?
  }

  /** A key's values: a pair adds one, a bare flag leaves `true` alone, and positionals are values of `_`. */
  function ValuesAfter(before: seq<string>, items: seq<Loose>, key: string): seq<string>
    decreases items
  {
    if items == [] then before
    else
      var now := match items[0]
        case Plain(token) => if key == POSITIONALS then before + [token] else before
        case Pair(k, value) => if k == key then before + [value] else before
        case Bare(k) => if k == key then ["true"] else before;
      ValuesAfter(now, items[1..], key)
  }

  /** A bare `--_` replaces the list of positionals by a text; a pair `--_ v` makes it a list again. */
  function ListAfter(list: bool, item: Loose): bool {
    match item
    case Plain(_) => list
    case Pair(key, _) => list || key == POSITIONALS
    case Bare(key) => list && key != POSITIONALS
  }

  /** Some positional arrives when there is no list to push it on. */
  predicate Breaks(list: bool, items: seq<Loose>)
    decreases items
  {
    items != [] && ((items[0].Plain? && !list) || Breaks(ListAfter(list, items[0]), items[1..]))
  }

  /** Item j is a positional, and `_` has been a text since item i, or since the start if i is -1. */
  ghost predicate BreaksAt(list: bool, items: seq<Loose>, i: int, j: nat) {
    && -1 <= i < j < |items| && items[j].Plain?
    && (if i == -1 then !list else items[i] == Bare(POSITIONALS))
    && forall k :: i < k < j ==> !(items[k].Pair? && items[k].key == POSITIONALS)
  }

  lemma {:induction false} BreaksSomewhere(list: bool, items: seq<Loose>) returns (i: int, j: nat)
    requires Breaks(list, items)
    ensures BreaksAt(list, items, i, j)
    decreases items
  {
    if items[0].Plain? && !list {
      i, j := -1, 0;
    } else {
      var i', j' := BreaksSomewhere(ListAfter(list, items[0]), items[1..]);
      assert forall k :: 1 <= k < |items| ==> items[k] == items[1..][k - 1];
      i, j := if i' == -1 && items[0] != Bare(POSITIONALS) then -1 else i' + 1, j' + 1;
    }
  }

  lemma {:induction false} BreaksThere(list: bool, items: seq<Loose>, i: int, j: nat)
    requires BreaksAt(list, items, i, j)
    ensures Breaks(list, items)
    decreases items
  {
    if j > 0 {
      assert forall k :: 1 <= k < |items| ==> items[k] == items[1..][k - 1];
      BreaksThere(ListAfter(list, items[0]), items[1..], if i == -1 then -1 else i - 1, j - 1);
    }
  }

  /** The arguments after one item. */
  function ReadOne(args: Args, item: Loose): Args
    requires POSITIONALS in args && (item.Plain? ==> HasPositionals(args))
  {
    match item
    case Plain(token) => args[POSITIONALS := Many(args[POSITIONALS].values + [token])]
    case Pair(key, value) => AddArg(args, key, value)
    case Bare(key) => args[key := One("true")]
  }

  lemma ReadOneIsRead(args: Args, item: Loose)
    requires POSITIONALS in args && (item.Plain? ==> HasPositionals(args))
    ensures var out := ReadOne(args, item);
            && POSITIONALS in out && HasPositionals(out) == ListAfter(HasPositionals(args), item)
            && forall key :: OptionalMany(out, key) == ValuesAfter(OptionalMany(args, key), [item], key)
  {
    assert [item][1..] == [];
  }

  lemma ValuesFirst(before: seq<string>, items: seq<Loose>, key: string)
    requires items != []
    ensures ValuesAfter(before, items, key) == ValuesAfter(ValuesAfter(before, [items[0]], key), items[1..], key)
  {
    assert [items[0]][1..] == [];
  }

  /** A flag that stands alone is followed by nothing or by a flag, unless it is `--json`. */
  lemma BareIsFollowed(items: seq<Loose>)
    requires items != [] && items[0].Bare? && WellRead(items) && items[0].key != "json"
    ensures RenderLoose(items[1..]) == [] || IsFlag(RenderLoose(items[1..])[0])
  {
    if |items| > 1 {
      FlagTokens(items[1].key);
      var rest := items[1..];
      assert rest[0] == items[1] && RenderLoose(rest) == RenderOne(rest[0]) + RenderLoose(rest[1..]);
      assert RenderOne(rest[0])[0] == "--" + items[1].key;
    }
  }

  const NO_LIST: Result<Args> := Err("args._.push is not a function")

  /** One turn of the parser reads one item, or fails at it. */
  lemma LenientReadsOne(args: Args, items: seq<Loose>)
    requires POSITIONALS in args && WellRead(items) && items != []
    ensures Lenient(args, RenderLoose(items))
         == if items[0].Plain? && !HasPositionals(args) then NO_LIST
            else Lenient(ReadOne(args, items[0]), RenderLoose(items[1..]))
  {
    var item, tail := items[0], RenderLoose(items[1..]);
    var argv := RenderLoose(items);
    assert argv == RenderOne(item) + tail;
    match item {
      case Plain(_) => assert argv[1..] == tail;
      case Pair(key, value) =>
        FlagTokens(key);
        assert argv[0] == "--" + key && argv[1] == value && argv[2..] == tail;
      case Bare(key) =>
        FlagTokens(key);
        assert argv[0] == "--" + key && argv[1..] == tail;
        if key != "json" {
          BareIsFollowed(items);
          assert |argv| > 1 ==> argv[1] == tail[0];
        }
    }
  }

  lemma {:induction false} LenientReads(args: Args, items: seq<Loose>)
    requires POSITIONALS in args && WellRead(items)
    ensures var r := Lenient(args, RenderLoose(items));
            if Breaks(HasPositionals(args), items) then r == NO_LIST
            else r.Ok? && forall key :: OptionalMany(r.value, key) == ValuesAfter(OptionalMany(args, key), items, key)
    decreases items
  {
    if items != [] {
      LenientReadsOne(args, items);
      if !items[0].Plain? || HasPositionals(args) {
        var next := ReadOne(args, items[0]);
        ReadOneIsRead(args, items[0]);
        LenientReads(next, items[1..]);
        forall key
          ensures ValuesAfter(OptionalMany(next, key), items[1..], key)
               == ValuesAfter(OptionalMany(args, key), items, key)
        {
          ValuesFirst(OptionalMany(args, key), items, key);
        }
      }
    }
  }

  /** Every argument list is such a list of items. */
  lemma {:induction false} EveryListIsLoose(argv: seq<string>) returns (items: seq<Loose>)
    ensures RenderLoose(items) == argv && WellRead(items)
    ensures items != [] ==> (items[0].Plain? <==> !IsFlag(argv[0]))
    decreases |argv|
  {
    if argv == [] {
      items := [];
    } else if !IsFlag(argv[0]) {
      var rest := EveryListIsLoose(argv[1..]);
      items := [Plain(argv[0])] + rest;
      assert items[1..] == rest && argv == [argv[0]] + argv[1..];
    } else {
      var key := argv[0][2..];
      assert argv[0] == "--" + key;
      if key == "json" || |argv| == 1 || IsFlag(argv[1]) {
        var rest := EveryListIsLoose(argv[1..]);
        items := [Bare(key)] + rest;
        assert items[1..] == rest && argv == [argv[0]] + argv[1..];
        assert rest != [] ==> argv[1..] != [] && argv[1..][0] == argv[1];
      } else {
        var rest := EveryListIsLoose(argv[2..]);
        items := [Pair(key, argv[1])] + rest;
        assert items[1..] == rest && argv == [argv[0], argv[1]] + argv[2..];
      }
    }
  }

  /**
   * Every argument list reads as positionals, flags with a value and flags alone. The
   * lenient parser fails if and only if a positional follows a `--_` that stands alone
   * with no `--_ value` in between; otherwise it keeps the positionals in order, a flag
   * with a value adds it to its key, and a flag alone, or `--json` whatever follows,
   * makes `true` the key's only value.
   */
  lemma LenientOutcome(argv: seq<string>) returns (items: seq<Loose>)
    ensures RenderLoose(items) == argv && WellRead(items)
    ensures var r := Lenient(EMPTY, argv);
            && (r.Err? <==> exists i, j :: i >= 0 && BreaksAt(true, items, i, j))
            && (r.Err? ==> r == NO_LIST)
            && (r.Ok? ==> forall key :: OptionalMany(r.value, key) == ValuesAfter([], items, key))
  {
    items := EveryListIsLoose(argv);
    LenientReads(EMPTY, items);
    if Breaks(true, items) {
      var i, j := BreaksSomewhere(true, items);
    }
    if i: int, j: nat :| i >= 0 && BreaksAt(true, items, i, j) {
      BreaksThere(true, items, i, j);
    }
  }

  // ---- strict against lenient ----

  lemma {:induction false} SameWithoutJson(args: Args, argv: seq<string>)
    requires HasPositionals(args) && Strict(args, argv).Ok? && "--json" !in argv
    ensures Lenient(args, argv) == Strict(args, argv)
    decreases |argv|
  {
    if argv != [] {
      if !IsFlag(argv[0]) {
        SameWithoutJson(PushPositional(args, argv[0]).value, argv[1..]);
      } else {
        var key := argv[0][2..];
        assert argv[0] == "--" + key && argv[0] in argv;
        assert "--" + "json" == "--json";
        AddKeepsPositionals(args, key, argv[1]);
        SameWithoutJson(AddArg(args, key, argv[1]), argv[2..]);
      }
    }
  }

  function JsonFlags(argv: seq<string>): nat {
    if argv == [] then 0 else JsonFlags(argv[1..]) + if argv[0] == "--json" then 1 else 0
  }

  lemma {:induction false} NoJsonFlags(argv: seq<string>)
    ensures JsonFlags(argv) == 0 <==> "--json" !in argv
  {
    if argv != [] {
      NoJsonFlags(argv[1..]);
      assert argv == [argv[0]] + argv[1..];
    }
  }

  /** The lenient parser reads the value of each `--json` as one positional more. */
  lemma {:induction false} JsonValuesBecomePositionals(strict: Args, lenient: Args, argv: seq<string>)
    requires HasPositionals(strict) && HasPositionals(lenient) && Strict(strict, argv).Ok?
    ensures Lenient(lenient, argv).Ok?
    ensures var s, l := Strict(strict, argv).value, Lenient(lenient, argv).value;
            && HasPositionals(s) && HasPositionals(l)
            && |l[POSITIONALS].values| - |s[POSITIONALS].values|
               == |lenient[POSITIONALS].values| - |strict[POSITIONALS].values| + JsonFlags(argv)
    decreases |argv|
  {
    if argv != [] {
      if !IsFlag(argv[0]) {
        JsonValuesBecomePositionals(PushPositional(strict, argv[0]).value, PushPositional(lenient, argv[0]).value,
            argv[1..]);
      } else {
        var key := argv[0][2..];
        assert argv[0] == "--" + key;
        assert argv[1..][1..] == argv[2..];
        assert argv[1] != "--json";
        AddKeepsPositionals(strict, key, argv[1]);
        if key == "json" {
          var flagged := lenient[key := One("true")];
          var pushed := PushPositional(flagged, argv[1]).value;
          assert Lenient(lenient, argv) == Lenient(flagged, argv[1..]) == Lenient(pushed, argv[2..]);
          JsonValuesBecomePositionals(AddArg(strict, key, argv[1]), pushed, argv[2..]);
        } else {
          AddKeepsPositionals(lenient, key, argv[1]);
          JsonValuesBecomePositionals(AddArg(strict, key, argv[1]), AddArg(lenient, key, argv[1]), argv[2..]);
        }
      }
    }
  }

  /** On what the strict parser accepts, the two parsers agree if and only if there is no `--json`. */
  lemma ParsersAgreeExactlyWithoutJson(argv: seq<string>)
    requires Strict(EMPTY, argv).Ok?
    ensures Lenient(EMPTY, argv) == Strict(EMPTY, argv) <==> "--json" !in argv
  {
    NoJsonFlags(argv);
    if "--json" !in argv {
      SameWithoutJson(EMPTY, argv);
    } else {
      JsonValuesBecomePositionals(EMPTY, EMPTY, argv);
    }
  }

  /** So the lenient parser round-trips rendered lists too, as long as no flag is `--json`. */
  lemma LenientRoundTrip(items: seq<Item>)
    requires forall item :: item in items ==> Renderable(item) && (item.Flag? ==> item.key != "json")
    ensures Lenient(EMPTY, Render(items)) == Strict(EMPTY, Render(items))
  {
    StrictRoundTrip(items);
    RenderedHasNoJson(items);
    SameWithoutJson(EMPTY, Render(items));
  }

  lemma {:induction false} RenderedHasNoJson(items: seq<Item>)
    requires forall item :: item in items ==> Renderable(item) && (item.Flag? ==> item.key != "json")
    ensures "--json" !in Render(items)
  {
    if items != [] {
      RenderedHasNoJson(items[1..]);
      assert items[0] in items;
      assert IsFlag("--json");
      if items[0].Flag? {
        FlagTokens(items[0].key);
        assert "--json"[2..] == "json";
        assert "--" + items[0].key != "--json" by {
          assert ("--" + items[0].key)[2..] != "--json"[2..];
        }
      }
    }
  }
}
