/** Input definitions: their SDK encoding, the portability boundary, and the merge by id that an
    import performs (src-tauri/src/commands/inputs.rs). */
module InputDefinitions {
  import opened Outcomes
  import opened InputText

  datatype PickOption = PickOption(name: string, value: string)

  datatype InputDefinition =
    | PromptString(id: string, caption: Option<string>, description: Option<string>,
                   default: Option<string>, password: Option<bool>)
    | PickString(id: string, caption: Option<string>, description: Option<string>,
                 options: seq<PickOption>, default: Option<string>)
    | Command(id: string, caption: Option<string>, command: string, args: Option<seq<string>>)

  /** The SDK's own shape: one description, and Command arguments keyed by strings. */
  datatype SdkInput =
    | SdkPrompt(id: string, description: string, default: Option<string>, password: Option<bool>)
    | SdkPick(id: string, description: string, options: seq<PickOption>, default: Option<string>)
    | SdkCommand(id: string, description: string, command: string, args: Option<map<string, string>>)

  // ---------- Command arguments ----------

  const KEY_WIDTH: nat := 6
  const KEYED_ARGUMENTS: nat := 1_000_000

  function ArgumentKey(index: nat): string {
    ZeroPadded(index, KEY_WIDTH)
  }

  /** Arguments become map entries under their padded index; a later key would overwrite. */
  function EncodeArguments(args: seq<string>): map<string, string> {
    if args == [] then map[]
    else
      var last := |args| - 1;
      EncodeArguments(args[..last])[ArgumentKey(last) := args[last]]
  }

  function DecodeArguments(args: map<string, string>): seq<string> {
    var keys := SortedKeys(args.Keys);
    SortedKeysSound(args.Keys);
    seq(|keys|, i requires 0 <= i < |keys| => args[keys[i]])
  }

  lemma KeyWidthHoldsAMillion()
    ensures Pow10(KEY_WIDTH) == KEYED_ARGUMENTS
  {
    assert Pow10(2) == 100 && Pow10(4) == 100 * Pow10(2) && Pow10(6) == 100 * Pow10(4);
  }

  lemma ArgumentKeyInjective(i: nat, j: nat)
    requires ArgumentKey(i) == ArgumentKey(j)
    ensures i == j
  {
    KeyWidthHoldsAMillion();
    DecimalLength(i, KEY_WIDTH);
    DecimalLength(j, KEY_WIDTH);
    if i < KEYED_ARGUMENTS && j < KEYED_ARGUMENTS {
      PaddedIsFixedWidth(i, KEY_WIDTH);
      PaddedIsFixedWidth(j, KEY_WIDTH);
      if i < j { FixedWidthOrdered(i, j, KEY_WIDTH); LexIrreflexive(ArgumentKey(i)); }
      if j < i { FixedWidthOrdered(j, i, KEY_WIDTH); LexIrreflexive(ArgumentKey(i)); }
    } else if KEYED_ARGUMENTS <= i && KEYED_ARGUMENTS <= j {
      DecimalInjective(i, j);
    }
  }

  ghost function ArgumentKeys(n: nat): seq<string> {
    seq(n, i requires 0 <= i => ArgumentKey(i))
  }

  /** `m` holds exactly the listed keys, each with the value listed beside it. */
  ghost predicate Lists(m: map<string, string>, keys: seq<string>, values: seq<string>) {
    && |keys| == |values| == |m|
    && (forall k :: k in m <==> k in keys)
    && (forall i :: 0 <= i < |keys| ==> m[keys[i]] == values[i])
  }

  lemma ListsExtend(m: map<string, string>, keys: seq<string>, values: seq<string>, key: string, value: string)
    requires Lists(m, keys, values) && key !in keys
    ensures Lists(m[key := value], keys + [key], values + [value])
  {
    var m' := m[key := value];
    assert m'.Keys == m.Keys + {key};
    forall i | 0 <= i < |keys| + 1 ensures m'[(keys + [key])[i]] == (values + [value])[i] {
      if i < |keys| { assert keys[i] in keys; }
    }
  }

  lemma ArgumentKeysExtend(n: nat)
    ensures ArgumentKeys(n + 1) == ArgumentKeys(n) + [ArgumentKey(n)]
    ensures ArgumentKey(n) !in ArgumentKeys(n)
  {
    if ArgumentKey(n) in ArgumentKeys(n) {
      var i: nat :| i < n && ArgumentKeys(n)[i] == ArgumentKey(n);
      ArgumentKeyInjective(i, n);
    }
  }

  lemma {:induction false} EncodeArgumentsEntries(args: seq<string>)
    ensures Lists(EncodeArguments(args), ArgumentKeys(|args|), args)
  {
    if args != [] {
      var last := |args| - 1;
      EncodeArgumentsEntries(args[..last]);
      EncodeOneMore(args[..last], args[last]);
      assert args[..last] + [args[last]] == args;
    }
  }

  lemma EncodeOneMore(args: seq<string>, last: string)
    requires Lists(EncodeArguments(args), ArgumentKeys(|args|), args)
    ensures Lists(EncodeArguments(args)[ArgumentKey(|args|) := last], ArgumentKeys(|args| + 1), args + [last])
  {
    ArgumentKeysExtend(|args|);
    ListsExtend(EncodeArguments(args), ArgumentKeys(|args|), args, ArgumentKey(|args|), last);
  }

  lemma ArgumentKeysSorted(n: nat)
    requires n <= KEYED_ARGUMENTS
    ensures StrictlySorted(ArgumentKeys(n))
  {
    KeyWidthHoldsAMillion();
    forall i, j | 0 <= i < j < n ensures LexLess(ArgumentKeys(n)[i], ArgumentKeys(n)[j]) {
      PaddedIsFixedWidth(i, KEY_WIDTH);
      PaddedIsFixedWidth(j, KEY_WIDTH);
      FixedWidthOrdered(i, j, KEY_WIDTH);
    }
  }

  lemma ArgumentsRoundTrip(args: seq<string>)
    requires |args| <= KEYED_ARGUMENTS
    ensures DecodeArguments(EncodeArguments(args)) == args
  {
    var encoded := EncodeArguments(args);
    var keys := ArgumentKeys(|args|);
    EncodeArgumentsEntries(args);
    ArgumentKeysSorted(|args|);
    SortedKeysUnique(encoded.Keys, keys);
    assert DecodeArguments(encoded) == args;
  }

  /** The key of the argument at index 1000000 sorts before that of index 100001. */
  lemma MillionthKeyMisplaced()
    ensures !LexLess(ArgumentKey(100001), ArgumentKey(1000000))
  {
    KeyWidthHoldsAMillion();
    DecimalLength(100000, 5);
    assert Pow10(5) == 100000 by { assert Pow10(2) == 100 && Pow10(4) == 100 * Pow10(2); }
    DecimalLength(100001, 5);
    DecimalLength(1000000, KEY_WIDTH);
    var p := Decimal(10000);
    assert Decimal(100001) == p + ['1'];
    assert Decimal(1000000) == Decimal(100000) + ['0'] && Decimal(100000) == p + ['0'];
    assert Decimal(1000000) == p + ['0', '0'];
    LexCommonPrefix(p, ['1'], ['0', '0']);
  }

  /** Beyond a million, the keys themselves are an argument list that comes back in another order. */
  lemma KeysAsArguments(n: nat)
    requires n > KEYED_ARGUMENTS
    ensures DecodeArguments(EncodeArguments(ArgumentKeys(n))) != ArgumentKeys(n)
  {
    var args := ArgumentKeys(n);
    var encoded := EncodeArguments(args);
    EncodeArgumentsEntries(args);
    var keys := SortedKeys(encoded.Keys);
    SortedKeysSound(encoded.Keys);
    assert LexLess(keys[100001], keys[1000000]);
    MillionthKeyMisplaced();
    assert keys != args;
    forall k | k in encoded ensures encoded[k] == k {
      var j: nat :| j < n && args[j] == k;
    }
    assert DecodeArguments(encoded) == keys;
  }

  /** Exactly how many arguments the padded keys can carry: every list of a length survives
      encoding and decoding if and only if the length is at most one million. */
  lemma ArgumentsRoundTripExactly(n: nat)
    ensures (forall args: seq<string> :: |args| == n ==> DecodeArguments(EncodeArguments(args)) == args)
       <==> n <= KEYED_ARGUMENTS
  {
    if n <= KEYED_ARGUMENTS {
      forall args: seq<string> | |args| == n
        ensures DecodeArguments(EncodeArguments(args)) == args
      {
        ArgumentsRoundTrip(args);
      }
    } else {
      KeysAsArguments(n);
      assert |ArgumentKeys(n)| == n;
    }
  }

  // ---------- Definitions ----------

  function EffectiveDescription(id: string, caption: Option<string>, description: Option<string>): string {
    if caption.Some? && Trim(caption.value) != [] then caption.value
    else if description.Some? && Trim(description.value) != [] then description.value
    else id
  }

  function ToSdk(d: InputDefinition): SdkInput {
    match d
    case PromptString(id, caption, description, default, password) =>
      SdkPrompt(id, EffectiveDescription(id, caption, description), default, password)
    case PickString(id, caption, description, options, default) =>
      SdkPick(id, EffectiveDescription(id, caption, description), options, default)
    case Command(id, caption, command, args) =>
      SdkCommand(id, EffectiveDescription(id, caption, None), command,
                 if args.Some? then Some(EncodeArguments(args.value)) else None)
  }

  function FromSdk(s: SdkInput): InputDefinition {
    match s
    case SdkPrompt(id, description, default, password) =>
      PromptString(id, Some(description), None, default, password)
    case SdkPick(id, description, options, default) =>
      PickString(id, Some(description), None, options, default)
    case SdkCommand(id, description, command, args) =>
      Command(id, Some(description), command,
              if args.Some? then Some(DecodeArguments(args.value)) else None)
  }

  /** Different argument lists are encoded differently, whatever their length. */
  lemma EncodeArgumentsInjective(a: seq<string>, b: seq<string>)
    requires EncodeArguments(a) == EncodeArguments(b)
    ensures a == b
  {
    EncodeArgumentsEntries(a);
    EncodeArgumentsEntries(b);
    forall i | 0 <= i < |a| ensures a[i] == b[i] {
      assert EncodeArguments(a)[ArgumentKeys(|a|)[i]] == a[i];
    }
  }

  /** The same bound decides whether a second encoding is the first one again. */
  lemma EncodingIsStableExactly(n: nat)
    ensures (forall args: seq<string> :: |args| == n ==>
        EncodeArguments(DecodeArguments(EncodeArguments(args))) == EncodeArguments(args))
       <==> n <= KEYED_ARGUMENTS
  {
    ArgumentsRoundTripExactly(n);
    if forall args: seq<string> :: |args| == n ==>
        EncodeArguments(DecodeArguments(EncodeArguments(args))) == EncodeArguments(args)
    {
      forall args: seq<string> | |args| == n ensures DecodeArguments(EncodeArguments(args)) == args {
        EncodeArgumentsInjective(DecodeArguments(EncodeArguments(args)), args);
      }
    }
  }

  /** The text an SDK input shows: the first of label and description that is not blank, or the id. */
  predicate Shows(shown: string, id: string, caption: Option<string>, description: Option<string>) {
    && (caption.Some? && Trim(caption.value) != [] ==> shown == caption.value)
    && (!(caption.Some? && Trim(caption.value) != []) ==>
      && (description.Some? && Trim(description.value) != [] ==> shown == description.value)
      && (!(description.Some? && Trim(description.value) != []) ==> shown == id))
  }

  /** The SDK input has everything the definition has, label and description being one text; each
      argument stands under its own index as a key. */
  ghost predicate Carries(s: SdkInput, d: InputDefinition) {
    match d
    case PromptString(id, caption, description, default, password) =>
      s.SdkPrompt? && s.id == id && s.default == default && s.password == password
        && Shows(s.description, id, caption, description)
    case PickString(id, caption, description, options, default) =>
      s.SdkPick? && s.id == id && s.options == options && s.default == default
        && Shows(s.description, id, caption, description)
    case Command(id, caption, command, args) =>
      s.SdkCommand? && s.id == id && s.command == command && Shows(s.description, id, caption, None)
        && (s.args.Some? <==> args.Some?)
        && (args.Some? ==> Lists(s.args.value, ArgumentKeys(|args.value|), args.value))
  }

  lemma ToSdkCarries(d: InputDefinition)
    ensures Carries(ToSdk(d), d)
  {
    if d.Command? && d.args.Some? { EncodeArgumentsEntries(d.args.value); }
  }

  /** A definition read from the SDK has everything the SDK input has, its text as the label; the
      arguments are in the order of their keys. */
  lemma FromSdkCarries(s: SdkInput)
    ensures var d := FromSdk(s);
      && d.id == s.id && d.caption == Some(s.description)
      && match s
         case SdkPrompt(_, _, default, password) =>
           d.PromptString? && d.default == default && d.password == password && d.description == None
         case SdkPick(_, _, options, default) =>
           d.PickString? && d.options == options && d.default == default && d.description == None
         case SdkCommand(_, _, command, args) =>
           && d.Command? && d.command == command && (d.args.Some? <==> args.Some?)
           && (args.Some? ==> exists keys :: StrictlySorted(keys) && Lists(args.value, keys, d.args.value))
  {
    if s.SdkCommand? && s.args.Some? {
      var keys := SortedKeys(s.args.value.Keys);
      SortedKeysSound(s.args.value.Keys);
      assert |s.args.value| == |s.args.value.Keys|;
      assert Lists(s.args.value, keys, DecodeArguments(s.args.value));
    }
  }

  /** Below the limit, the key of an argument is six digits that write its index. */
  lemma ArgumentKeyWrites(i: nat)
    requires i < KEYED_ARGUMENTS
    ensures var key := ArgumentKey(i); |key| == 6 && AreDigits(key) && NumberOf(key) == i
  {
    KeyWidthHoldsAMillion();
    PaddedIsFixedWidth(i, KEY_WIDTH);
    FixedWidthWrites(i, KEY_WIDTH);
  }

  /** The argument list, if any, is one the padded keys keep in order. */
  predicate KeyedInOrder(d: InputDefinition) {
    d.Command? && d.args.Some? ==> |d.args.value| <= KEYED_ARGUMENTS
  }

  predicate StoredInOrder(s: SdkInput) {
    s.SdkCommand? && s.args.Some? ==> |s.args.value| <= KEYED_ARGUMENTS
  }

  /** Encoding, decoding and encoding again gives the first encoding, for every kind. */
  lemma EncodingIsStable(d: InputDefinition)
    requires KeyedInOrder(d)
    ensures ToSdk(FromSdk(ToSdk(d))) == ToSdk(d)
    ensures d.Command? ==> FromSdk(ToSdk(d)).args == d.args
  {
    if d.Command? && d.args.Some? { ArgumentsRoundTrip(d.args.value); }
  }

  // ---------- The portability boundary ----------

  datatype PrepareError =
    | BadId
    | DuplicateId(id: string)
    | PlaintextPasswordDefault(id: string)
    | NoOptions(id: string)
    | BlankOption(id: string)
    | UnknownDefault(id: string)
    | BlankCommand(id: string)
    | UnportableArguments(id: string)

  function NormalizedOption(o: PickOption): PickOption {
    o.(name := Trim(o.name))
  }

  function NormalizedOptions(os: seq<PickOption>): (r: seq<PickOption>)
    ensures |r| == |os|
    ensures forall i :: 0 <= i < |os| ==> r[i] == NormalizedOption(os[i])
  {
    seq(|os|, i requires 0 <= i < |os| => NormalizedOption(os[i]))
  }

  /** What the boundary stores for one definition it accepts. */
  function Normalized(d: InputDefinition): InputDefinition {
    match d
    case PromptString(id, caption, description, default, password) =>
      PromptString(id, NormalizedText(caption), NormalizedText(description), NormalizedText(default), password)
    case PickString(id, caption, description, options, default) =>
      PickString(id, NormalizedText(caption), NormalizedText(description), NormalizedOptions(options), default)
    case Command(id, caption, command, args) =>
      Command(id, NormalizedText(caption), Trim(command), args)
  }

  /** The argument check of the SDK configuration service, which is not part of this model. */
  type Portability = seq<string> -> bool

  predicate ValidId(id: string) {
    id != [] && Trim(id) == id
  }

  /** The first reason to refuse a definition, read off its normalized form. */
  function Refusal(d: InputDefinition, portable: Portability): Option<PrepareError> {
    match Normalized(d)
    case PromptString(id, _, _, default, password) =>
      if password == Some(true) && default.Some? then Some(PlaintextPasswordDefault(id)) else None
    case PickString(id, _, _, options, default) =>
      if options == [] then Some(NoOptions(id))
      else if exists o :: o in options && (o.name == [] || Trim(o.value) == []) then Some(BlankOption(id))
      else if default.Some? && !exists o :: o in options && o.value == default.value then Some(UnknownDefault(id))
      else None
    case Command(id, _, command, args) =>
      if command == [] then Some(BlankCommand(id))
      else if args.Some? && !portable(args.value) then Some(UnportableArguments(id))
      else None
  }

  /** The text is the other without white space at its ends, or absent if that leaves nothing. */
  predicate IsNormalText(n: Option<string>, o: Option<string>) {
    if o.Some? && Trim(o.value) != [] then n == Some(Trim(o.value)) else n == None
  }

  /** What normalizing changes, and what it keeps: optional texts, option labels and the command are
      trimmed; ids, passwords, option values, the default of a choice and arguments stay. */
  lemma NormalizedKeeps(d: InputDefinition)
    ensures var n := Normalized(d);
      && n.id == d.id && IsNormalText(n.caption, d.caption)
      && match d
         case PromptString(_, _, description, default, password) =>
           n.PromptString? && n.password == password
             && IsNormalText(n.description, description) && IsNormalText(n.default, default)
         case PickString(_, _, description, options, default) =>
           && n.PickString? && n.default == default && IsNormalText(n.description, description)
           && |n.options| == |options|
           && forall i :: 0 <= i < |options| ==>
             n.options[i].value == options[i].value && n.options[i].name == Trim(options[i].name)
         case Command(_, _, command, args) => n.Command? && n.command == Trim(command) && n.args == args
  {}

  /** When a definition is accepted, said of the definition as it was given. */
  lemma AcceptedExactly(d: InputDefinition, portable: Portability)
    ensures Refusal(d, portable) == None <==>
      match d
      case PromptString(_, _, _, default, password) =>
        password == Some(true) && default.Some? ==> Trim(default.value) == []
      case PickString(_, _, _, options, default) =>
        && options != []
        && (forall i :: 0 <= i < |options| ==> Trim(options[i].name) != [] && Trim(options[i].value) != [])
        && (default.Some? ==> exists i :: 0 <= i < |options| && options[i].value == default.value)
      case Command(_, _, command, args) => Trim(command) != [] && (args.Some? ==> portable(args.value))
  {
    if d.PickString? { OptionsKept(d.options); }
  }

  lemma OptionsKept(options: seq<PickOption>)
    ensures forall i :: 0 <= i < |options| ==> NormalizedOptions(options)[i] in NormalizedOptions(options)
  {}

  predicate DistinctIds(ds: seq<InputDefinition>) {
    forall i, j :: 0 <= i < j < |ds| ==> ds[i].id != ds[j].id
  }

  /** The refusal of the definition at `i`, given the ids before it. */
  function RefusalAt(ds: seq<InputDefinition>, i: nat, portable: Portability): Option<PrepareError>
    requires i < |ds|
  {
    if !ValidId(ds[i].id) then Some(BadId)
    else if exists j :: 0 <= j < i && ds[j].id == ds[i].id then Some(DuplicateId(ds[i].id))
    else Refusal(ds[i], portable)
  }

  function NormalizedAll(ds: seq<InputDefinition>): (r: seq<InputDefinition>)
    ensures |r| == |ds|
    ensures forall i :: 0 <= i < |ds| ==> r[i] == Normalized(ds[i])
  {
    seq(|ds|, i requires 0 <= i < |ds| => Normalized(ds[i]))
  }

  predicate Acceptable(ds: seq<InputDefinition>, portable: Portability) {
    forall i :: 0 <= i < |ds| ==> RefusalAt(ds, i, portable) == None
  }

  /** A list is accepted exactly when its ids are different, not empty and without white space at their
      ends, and no definition is refused by itself. */
  lemma AcceptableExactly(ds: seq<InputDefinition>, portable: Portability)
    ensures Acceptable(ds, portable) <==>
      && DistinctIds(ds)
      && forall i :: 0 <= i < |ds| ==>
        ds[i].id != [] && IsTrimmed(ds[i].id) && Refusal(ds[i], portable) == None
  {
    forall i | 0 <= i < |ds| ensures Trim(ds[i].id) == ds[i].id <==> IsTrimmed(ds[i].id) {
      TrimmedIsFixed(ds[i].id);
    }
    if Acceptable(ds, portable) {
      forall i, j | 0 <= i < j < |ds| ensures ds[i].id != ds[j].id { assert RefusalAt(ds, j, portable) == None; }
      forall i | 0 <= i < |ds| ensures ValidId(ds[i].id) && Refusal(ds[i], portable) == None {
        assert RefusalAt(ds, i, portable) == None;
      }
    }
  }

  /** The definition at `i` is the first one refused, for the reason `e`. */
  predicate FirstRefusal(ds: seq<InputDefinition>, i: nat, portable: Portability, e: PrepareError)
    requires i < |ds|
  {
    && RefusalAt(ds, i, portable) == Some(e)
    && forall j :: 0 <= j < i ==> RefusalAt(ds, j, portable) == None
  }

  method FirstBlankOption(options: seq<PickOption>) returns (normalized: seq<PickOption>, blank: bool)
    ensures blank <==> exists o :: o in NormalizedOptions(options) && (o.name == [] || Trim(o.value) == [])
    ensures !blank ==> normalized == NormalizedOptions(options)
  {
    normalized, blank := [], false;
    for i := 0 to |options|
      invariant normalized == NormalizedOptions(options)[..i]
      invariant forall o :: o in normalized ==> o.name != [] && Trim(o.value) != []
    {
      var name := Trim(options[i].name);
      assert NormalizedOptions(options)[i] == PickOption(name, options[i].value);
      if name == [] || Trim(options[i].value) == [] {
        blank := true;
        return;
      }
      normalized := normalized + [PickOption(name, options[i].value)];
    }
  }

  /** The part of the loop that looks at one definition by itself. */
  method PrepareOne(input: InputDefinition, portable: Portability) returns (r: Result<InputDefinition, PrepareError>)
    ensures r.Ok? <==> Refusal(input, portable) == None
    ensures r == if r.Ok? then Ok(Normalized(input)) else Err(Refusal(input, portable).value)
  {
    match input {
      case PromptString(id, caption, description, default, password) =>
        var next := PromptString(id, NormalizedText(caption), NormalizedText(description),
                                 NormalizedText(default), password);
        if password == Some(true) && next.default.Some? { return Err(PlaintextPasswordDefault(id)); }
        return Ok(next);
      case PickString(id, caption, description, options, default) =>
        if options == [] { return Err(NoOptions(id)); }
        var normalized, blank := FirstBlankOption(options);
        if blank { return Err(BlankOption(id)); }
        if default.Some? && !exists o :: o in normalized && o.value == default.value {
          return Err(UnknownDefault(id));
        }
        return Ok(PickString(id, NormalizedText(caption), NormalizedText(description), normalized, default));
      case Command(id, caption, command, args) =>
        var trimmed := Trim(command);
        if trimmed == [] { return Err(BlankCommand(id)); }
        if args.Some? && !portable(args.value) { return Err(UnportableArguments(id)); }
        return Ok(Command(id, NormalizedText(caption), trimmed, args));
    }
  }

  /** `prepare_portable_input_definitions`: normalizes every definition or refuses the list for
      its first defect. */
  method PreparePortable(inputs: seq<InputDefinition>, portable: Portability)
    returns (r: Result<seq<InputDefinition>, PrepareError>)
    ensures r.Ok? <==> Acceptable(inputs, portable)
    ensures r.Ok? ==> r.value == NormalizedAll(inputs)
    ensures r.Err? ==> exists i :: 0 <= i < |inputs| && FirstRefusal(inputs, i, portable, r.error)
  {
    var ids: set<string> := {};
    var prepared := [];
    for i := 0 to |inputs|
      invariant ids == set j | 0 <= j < i :: inputs[j].id
      invariant prepared == NormalizedAll(inputs)[..i]
      invariant forall j :: 0 <= j < i ==> RefusalAt(inputs, j, portable) == None
    {
      var input := inputs[i];
      ghost var refusal := RefusalAt(inputs, i, portable);
      assert refusal.Some? ==> FirstRefusal(inputs, i, portable, refusal.value);
      if input.id == [] || Trim(input.id) != input.id { return Err(BadId); }
      if input.id in ids { return Err(DuplicateId(input.id)); }
      ids := ids + {input.id};
      var one := PrepareOne(input, portable);
      if one.Err? { return Err(one.error); }
      prepared := prepared + [one.value];
    }
    return Ok(prepared);
  }

  /** A definition the boundary accepted keeps its meaning through storage: read back, it is
      accepted again and would be stored as the same SDK input. */
  lemma StoredDefinitionSurvives(d: InputDefinition, portable: Portability)
    requires ValidId(d.id) && Refusal(d, portable) == None && KeyedInOrder(d)
    ensures var back := FromSdk(ToSdk(Normalized(d)));
      && back.id == d.id
      && Refusal(back, portable) == None
      && ToSdk(Normalized(back)) == ToSdk(Normalized(d))
  {
    var n := Normalized(d);
    EncodingIsStable(n);
    if d.caption.Some? { TrimIsTrimmed(d.caption.value); }
    match d {
      case PromptString(_, _, description, default, _) =>
        if description.Some? { TrimIsTrimmed(description.value); }
        NormalizedTextIdempotent(default);
      case PickString(_, _, description, options, _) =>
        if description.Some? { TrimIsTrimmed(description.value); }
        NormalizedOptionsIdempotent(options);
      case Command(_, _, command, _) =>
        TrimIsTrimmed(command);
    }
  }

  lemma NormalizedOptionsIdempotent(options: seq<PickOption>)
    ensures NormalizedOptions(NormalizedOptions(options)) == NormalizedOptions(options)
  {
    forall i | 0 <= i < |options|
      ensures NormalizedOption(NormalizedOption(options[i])) == NormalizedOption(options[i])
    {
      TrimIsTrimmed(options[i].name);
    }
  }

  lemma NormalizedIdempotent(d: InputDefinition)
    ensures Normalized(Normalized(d)) == Normalized(d)
  {
    NormalizedTextIdempotent(d.caption);
    match d {
      case PromptString(_, _, description, default, _) =>
        NormalizedTextIdempotent(description);
        NormalizedTextIdempotent(default);
      case PickString(_, _, description, options, _) =>
        NormalizedTextIdempotent(description);
        NormalizedOptionsIdempotent(options);
      case Command(_, _, command, _) =>
        TrimIsTrimmed(command);
    }
  }

  /** Preparing a prepared list accepts it and changes nothing. */
  lemma PrepareIdempotent(ds: seq<InputDefinition>, portable: Portability)
    requires Acceptable(ds, portable)
    ensures Acceptable(NormalizedAll(ds), portable)
    ensures NormalizedAll(NormalizedAll(ds)) == NormalizedAll(ds)
    ensures DistinctIds(ds) && DistinctIds(NormalizedAll(ds))
  {
    var ns := NormalizedAll(ds);
    forall i | 0 <= i < |ds|
      ensures RefusalAt(ns, i, portable) == None && Normalized(ns[i]) == ns[i]
    {
      assert RefusalAt(ds, i, portable) == None;
      NormalizedIdempotent(ds[i]);
    }
    forall i, j | 0 <= i < j < |ds| ensures ds[i].id != ds[j].id {
      assert RefusalAt(ds, j, portable) == None;
    }
  }

  // ---------- Merging by id ----------

  function Without(ds: seq<InputDefinition>, id: string): seq<InputDefinition> {
    if ds == [] then []
    else if ds[0].id == id then Without(ds[1..], id)
    else [ds[0]] + Without(ds[1..], id)
  }

  /** Each incoming definition replaces the one with its id and moves to the end. */
  function MergeById(existing: seq<InputDefinition>, incoming: seq<InputDefinition>): seq<InputDefinition>
    decreases |incoming|
  {
    if incoming == [] then existing
    else MergeById(Without(existing, incoming[0].id) + [incoming[0]], incoming[1..])
  }

  ghost function Ids(ds: seq<InputDefinition>): set<string> {
    set d | d in ds :: d.id
  }

  /** The definitions whose ids are not among `ids`, in order. */
  ghost function Others(ds: seq<InputDefinition>, ids: set<string>): seq<InputDefinition> {
    if ds == [] then []
    else if ds[0].id in ids then Others(ds[1..], ids)
    else [ds[0]] + Others(ds[1..], ids)
  }

  lemma {:induction false} OthersMembers(ds: seq<InputDefinition>, ids: set<string>)
    ensures forall d :: d in Others(ds, ids) <==> d in ds && d.id !in ids
  {
    if ds != [] {
      OthersMembers(ds[1..], ids);
      assert ds == [ds[0]] + ds[1..];
    }
  }

  lemma {:induction false} OthersAppend(a: seq<InputDefinition>, b: seq<InputDefinition>, ids: set<string>)
    ensures Others(a + b, ids) == Others(a, ids) + Others(b, ids)
  {
    if a == [] {
      assert a + b == b;
    } else {
      assert (a + b)[1..] == a[1..] + b;
      OthersAppend(a[1..], b, ids);
    }
  }

  lemma {:induction false} OthersKeepsAll(ds: seq<InputDefinition>, ids: set<string>)
    requires forall i :: 0 <= i < |ds| ==> ds[i].id !in ids
    ensures Others(ds, ids) == ds
  {
    if ds != [] { OthersKeepsAll(ds[1..], ids); }
  }

  lemma {:induction false} OthersDropsAll(ds: seq<InputDefinition>, ids: set<string>)
    requires forall i :: 0 <= i < |ds| ==> ds[i].id in ids
    ensures Others(ds, ids) == []
  {
    if ds != [] { OthersDropsAll(ds[1..], ids); }
  }

  lemma {:induction false} OthersOfWithout(ds: seq<InputDefinition>, id: string, ids: set<string>)
    ensures Others(Without(ds, id), ids) == Others(ds, ids + {id})
  {
    if ds != [] { OthersOfWithout(ds[1..], id, ids); }
  }

  /** The loop's meaning: everything not replaced keeps its place, and the incoming
      definitions follow in their own order. */
  lemma {:induction false} MergeIsReplacement(existing: seq<InputDefinition>, incoming: seq<InputDefinition>)
    requires DistinctIds(incoming)
    ensures MergeById(existing, incoming) == Others(existing, Ids(incoming)) + incoming
    decreases |incoming|
  {
    if incoming == [] {
      assert Ids(incoming) == {};
      OthersKeepsAll(existing, {});
      assert existing + [] == existing;
    } else {
      var first, rest := incoming[0], incoming[1..];
      assert incoming == [first] + rest;
      IdsCons(first, rest);
      MergeIsReplacement(Without(existing, first.id) + [first], rest);
      MergeStep(existing, first, rest, Ids(rest));
    }
  }

  lemma MergeStep(existing: seq<InputDefinition>, first: InputDefinition, rest: seq<InputDefinition>, ids: set<string>)
    requires first.id !in ids
    requires var base := Without(existing, first.id) + [first];
      MergeById(base, rest) == Others(base, ids) + rest
    ensures MergeById(existing, [first] + rest) == Others(existing, ids + {first.id}) + ([first] + rest)
  {
    var kept := Others(existing, ids + {first.id});
    OthersStep(existing, first, ids);
    MergeFirst(existing, first, rest);
    assert (kept + [first]) + rest == kept + ([first] + rest);
  }

  lemma MergeFirst(existing: seq<InputDefinition>, first: InputDefinition, rest: seq<InputDefinition>)
    ensures MergeById(existing, [first] + rest) == MergeById(Without(existing, first.id) + [first], rest)
  {
    assert ([first] + rest)[1..] == rest;
  }

  lemma OthersStep(existing: seq<InputDefinition>, first: InputDefinition, ids: set<string>)
    requires first.id !in ids
    ensures Others(Without(existing, first.id) + [first], ids) == Others(existing, ids + {first.id}) + [first]
  {
    OthersAppend(Without(existing, first.id), [first], ids);
    OthersKeepsAll([first], ids);
    OthersOfWithout(existing, first.id, ids);
  }

  lemma IdsCons(first: InputDefinition, rest: seq<InputDefinition>)
    requires DistinctIds([first] + rest)
    ensures DistinctIds(rest) && first.id !in Ids(rest)
    ensures Ids([first] + rest) == Ids(rest) + {first.id}
  {
    var all := [first] + rest;
    forall i, j | 0 <= i < j < |rest| ensures rest[i].id != rest[j].id {
      assert all[i + 1].id != all[j + 1].id;
    }
    forall i | 0 <= i < |rest| ensures rest[i].id != first.id {
      assert all[0].id != all[i + 1].id;
    }
  }

  method Merge(existing: seq<InputDefinition>, incoming: seq<InputDefinition>)
    returns (merged: seq<InputDefinition>)
    ensures merged == MergeById(existing, incoming)
  {
    merged := existing;
    var i := 0;
    while i < |incoming|
      invariant 0 <= i <= |incoming|
      invariant MergeById(merged, incoming[i..]) == MergeById(existing, incoming)
    {
      merged := Without(merged, incoming[i].id) + [incoming[i]];
      assert incoming[i..][0] == incoming[i] && incoming[i..][1..] == incoming[i + 1..];
      i := i + 1;
    }
  }

  // ---------- The stored document ----------

  function EncodeAll(ds: seq<InputDefinition>): (r: seq<SdkInput>)
    ensures |r| == |ds|
    ensures forall i :: 0 <= i < |ds| ==> r[i] == ToSdk(ds[i])
  {
    seq(|ds|, i requires 0 <= i < |ds| => ToSdk(ds[i]))
  }

  function DecodeAll(doc: seq<SdkInput>): (r: seq<InputDefinition>)
    ensures |r| == |doc|
    ensures forall i :: 0 <= i < |doc| ==> r[i] == FromSdk(doc[i])
  {
    seq(|doc|, i requires 0 <= i < |doc| => FromSdk(doc[i]))
  }

  predicate DocumentInOrder(doc: seq<SdkInput>) {
    forall s :: s in doc ==> StoredInOrder(s)
  }

  predicate DefinitionsInOrder(ds: seq<InputDefinition>) {
    forall d :: d in ds ==> KeyedInOrder(d)
  }

  /** The whole list an import stores: what was there, merged with the import. */
  function MergedDefinitions(doc: seq<SdkInput>, inputs: seq<InputDefinition>): seq<InputDefinition> {
    MergeById(DecodeAll(doc), inputs)
  }

  /** The document after the inputs of an import are stored; `None` when the merged list is
      refused, which leaves the document as it was. */
  function ImportedDocument(doc: seq<SdkInput>, inputs: seq<InputDefinition>, portable: Portability)
    : Option<seq<SdkInput>>
  {
    var merged := MergedDefinitions(doc, inputs);
    if Acceptable(merged, portable) then Some(EncodeAll(NormalizedAll(merged))) else None
  }

  lemma PartsAcceptable(a: seq<InputDefinition>, b: seq<InputDefinition>, portable: Portability)
    requires forall i, j :: 0 <= i < |a| && 0 <= j < |b| ==> a[i].id != b[j].id
    ensures Acceptable(a + b, portable) <==> Acceptable(a, portable) && Acceptable(b, portable)
  {
    PartRefusals(a, b, portable);
    if Acceptable(a + b, portable) {
      forall i | 0 <= i < |a| ensures RefusalAt(a, i, portable) == None {
        assert RefusalAt(a + b, i, portable) == None;
      }
      forall i | 0 <= i < |b| ensures RefusalAt(b, i, portable) == None {
        assert RefusalAt(a + b, |a| + i, portable) == None;
      }
    }
    if Acceptable(a, portable) && Acceptable(b, portable) {
      forall i | 0 <= i < |a + b| ensures RefusalAt(a + b, i, portable) == None {
        if i < |a| { assert RefusalAt(a, i, portable) == None; }
        else { assert RefusalAt(b, i - |a|, portable) == RefusalAt(a + b, |a| + (i - |a|), portable); }
      }
    }
  }

  lemma PartRefusals(a: seq<InputDefinition>, b: seq<InputDefinition>, portable: Portability)
    requires forall i, j :: 0 <= i < |a| && 0 <= j < |b| ==> a[i].id != b[j].id
    ensures forall i :: 0 <= i < |a| ==> RefusalAt(a + b, i, portable) == RefusalAt(a, i, portable)
    ensures forall i :: 0 <= i < |b| ==> RefusalAt(a + b, |a| + i, portable) == RefusalAt(b, i, portable)
  {
    forall i | 0 <= i < |a| ensures RefusalAt(a + b, i, portable) == RefusalAt(a, i, portable) {
      SameRefusal(a + b, i, a, i, portable);
    }
    forall i | 0 <= i < |b| ensures RefusalAt(a + b, |a| + i, portable) == RefusalAt(b, i, portable) {
      SameRefusal(a + b, |a| + i, b, i, portable);
    }
  }

  lemma SameRefusal(xs: seq<InputDefinition>, i: nat, ys: seq<InputDefinition>, j: nat, portable: Portability)
    requires j < |ys| && j <= i < |xs| && (forall k :: 0 <= k <= j ==> xs[i - j + k] == ys[k])
    requires forall k :: 0 <= k < i - j ==> xs[k].id != ys[j].id
    ensures RefusalAt(xs, i, portable) == RefusalAt(ys, j, portable)
  {
    assert xs[i] == ys[j];
    if exists k :: 0 <= k < j && ys[k].id == ys[j].id {
      var k :| 0 <= k < j && ys[k].id == ys[j].id;
      assert xs[i - j + k].id == xs[i].id;
    }
    if exists k :: 0 <= k < i && xs[k].id == xs[i].id {
      var k :| 0 <= k < i && xs[k].id == xs[i].id;
      assert k >= i - j && ys[k - (i - j)].id == ys[j].id;
    }
  }

  /** An accepted import is refused by a document exactly when the definitions it would leave alone
      are refused by themselves. */
  lemma ImportedDocumentExists(doc: seq<SdkInput>, inputs: seq<InputDefinition>, portable: Portability)
    requires Acceptable(inputs, portable) && DistinctIds(inputs)
    ensures ImportedDocument(doc, inputs, portable).Some?
       <==> Acceptable(Others(DecodeAll(doc), Ids(inputs)), portable)
  {
    var rest := Others(DecodeAll(doc), Ids(inputs));
    MergeIsReplacement(DecodeAll(doc), inputs);
    OthersMembers(DecodeAll(doc), Ids(inputs));
    forall i, j | 0 <= i < |rest| && 0 <= j < |inputs| ensures rest[i].id != inputs[j].id {
      assert rest[i] in rest && inputs[j] in inputs;
    }
    PartsAcceptable(rest, inputs, portable);
  }

  /** The stored argument lists that an import leaves alone are ones the padded keys keep in order. */
  ghost predicate UntouchedInOrder(doc: seq<SdkInput>, inputs: seq<InputDefinition>) {
    forall s :: s in doc ==> s.id in Ids(inputs) || StoredInOrder(s)
  }

  lemma UntouchedDefinition(doc: seq<SdkInput>, inputs: seq<InputDefinition>, d: InputDefinition)
    requires UntouchedInOrder(doc, inputs) && d in Others(DecodeAll(doc), Ids(inputs))
    ensures KeyedInOrder(d)
  {
    OthersMembers(DecodeAll(doc), Ids(inputs));
    var i :| 0 <= i < |doc| && DecodeAll(doc)[i] == d;
    assert doc[i] in doc;
    OrderabilityOfStored(doc[i]);
  }

  /** A stored list is in order exactly when its definition is. */
  lemma OrderabilityIsKept(d: InputDefinition)
    ensures StoredInOrder(ToSdk(Normalized(d))) <==> KeyedInOrder(d)
  {
    if d.Command? && d.args.Some? { EncodeArgumentsEntries(d.args.value); }
  }

  lemma OrderabilityOfStored(s: SdkInput)
    ensures KeyedInOrder(FromSdk(s)) <==> StoredInOrder(s)
  {
    if s.SdkCommand? && s.args.Some? { SortedKeysSound(s.args.value.Keys); }
  }

  lemma StoredDocumentInOrder(merged: seq<InputDefinition>)
    ensures DocumentInOrder(EncodeAll(NormalizedAll(merged))) <==> DefinitionsInOrder(merged)
  {
    var stored := EncodeAll(NormalizedAll(merged));
    forall i | 0 <= i < |merged| ensures StoredInOrder(stored[i]) <==> KeyedInOrder(merged[i]) {
      OrderabilityIsKept(merged[i]);
    }
    if DefinitionsInOrder(merged) {
      forall s | s in stored ensures StoredInOrder(s) {
        var i :| 0 <= i < |stored| && stored[i] == s;
        assert merged[i] in merged;
      }
    }
    if DocumentInOrder(stored) {
      forall d | d in merged ensures KeyedInOrder(d) {
        var i :| 0 <= i < |merged| && merged[i] == d;
        assert stored[i] in stored;
      }
    }
  }

  /** An import leaves a document in order exactly when what it leaves alone and what it brings are
      in order. */
  lemma ImportKeepsOrder(doc: seq<SdkInput>, inputs: seq<InputDefinition>, portable: Portability)
    requires DistinctIds(inputs) && ImportedDocument(doc, inputs, portable).Some?
    ensures DocumentInOrder(ImportedDocument(doc, inputs, portable).value)
       <==> UntouchedInOrder(doc, inputs) && DefinitionsInOrder(inputs)
  {
    var merged, rest := MergedDefinitions(doc, inputs), Others(DecodeAll(doc), Ids(inputs));
    MergeIsReplacement(DecodeAll(doc), inputs);
    StoredDocumentInOrder(merged);
    RestInOrder(doc, inputs);
    if DefinitionsInOrder(merged) {
      forall d | d in inputs ensures KeyedInOrder(d) { assert d in merged; }
      forall d | d in rest ensures KeyedInOrder(d) { assert d in merged; }
    }
  }

  lemma ImportedIsInOrder(doc: seq<SdkInput>, inputs: seq<InputDefinition>, portable: Portability)
    requires DocumentInOrder(doc) && DefinitionsInOrder(inputs) && ImportedDocument(doc, inputs, portable).Some?
    ensures DocumentInOrder(ImportedDocument(doc, inputs, portable).value)
  {
    var merged := MergedDefinitions(doc, inputs);
    MergeAddsNothing(DecodeAll(doc), inputs);
    forall d | d in merged ensures KeyedInOrder(d) {
      if d !in inputs {
        var i :| 0 <= i < |doc| && DecodeAll(doc)[i] == d;
        assert doc[i] in doc;
        OrderabilityOfStored(doc[i]);
      }
    }
    StoredDocumentInOrder(merged);
  }

  lemma {:induction false} MergeAddsNothing(existing: seq<InputDefinition>, incoming: seq<InputDefinition>)
    ensures forall d :: d in MergeById(existing, incoming) ==> d in existing || d in incoming
    decreases |incoming|
  {
    if incoming != [] {
      WithoutAddsNothing(existing, incoming[0].id);
      MergeAddsNothing(Without(existing, incoming[0].id) + [incoming[0]], incoming[1..]);
    }
  }

  lemma {:induction false} WithoutAddsNothing(ds: seq<InputDefinition>, id: string)
    ensures forall d :: d in Without(ds, id) ==> d in ds
  {
    if ds != [] { WithoutAddsNothing(ds[1..], id); }
  }

  /** What an import leaves alone is stored in order again. */
  lemma ImportLeavesUntouchedInOrder(doc: seq<SdkInput>, inputs: seq<InputDefinition>, portable: Portability)
    requires UntouchedInOrder(doc, inputs) && DistinctIds(inputs) && ImportedDocument(doc, inputs, portable).Some?
    ensures UntouchedInOrder(ImportedDocument(doc, inputs, portable).value, inputs)
  {
    var merged, stored := MergedDefinitions(doc, inputs), ImportedDocument(doc, inputs, portable).value;
    MergeIsReplacement(DecodeAll(doc), inputs);
    forall s | s in stored ensures s.id in Ids(inputs) || StoredInOrder(s) {
      var i :| 0 <= i < |stored| && stored[i] == s;
      if merged[i] in inputs {
        assert merged[i].id in Ids(inputs);
      } else {
        UntouchedDefinition(doc, inputs, merged[i]);
        OrderabilityIsKept(merged[i]);
      }
    }
  }

  lemma RestInOrder(doc: seq<SdkInput>, inputs: seq<InputDefinition>)
    ensures DefinitionsInOrder(Others(DecodeAll(doc), Ids(inputs))) <==> UntouchedInOrder(doc, inputs)
  {
    var rest := Others(DecodeAll(doc), Ids(inputs));
    OthersMembers(DecodeAll(doc), Ids(inputs));
    if UntouchedInOrder(doc, inputs) {
      forall d | d in rest ensures KeyedInOrder(d) { UntouchedDefinition(doc, inputs, d); }
    }
    if DefinitionsInOrder(rest) {
      forall s | s in doc ensures s.id in Ids(inputs) || StoredInOrder(s) {
        var i :| 0 <= i < |doc| && doc[i] == s;
        assert DecodeAll(doc)[i] in DecodeAll(doc);
        OrderabilityOfStored(s);
      }
    }
  }

  /** Reading a stored import back and merging the same import again changes only how the kept
      definitions are written: the imported ones are the same, in the same places. */
  lemma MergeAgain(rest: seq<InputDefinition>, inputs: seq<InputDefinition>, back: seq<InputDefinition>)
    requires DistinctIds(inputs) && |back| == |rest| + |inputs|
    requires forall i :: 0 <= i < |rest| ==> rest[i].id !in Ids(inputs)
    requires forall i :: 0 <= i < |back| ==> back[i].id == (rest + inputs)[i].id
    ensures MergeById(back, inputs) == back[..|rest|] + inputs
  {
    KeptIds(rest, inputs, back);
    ReplacedIds(rest, inputs, back);
    MergeParts(back[..|rest|], back[|rest|..], inputs);
    assert back[..|rest|] + back[|rest|..] == back;
  }

  lemma MergeParts(kept: seq<InputDefinition>, replaced: seq<InputDefinition>, inputs: seq<InputDefinition>)
    requires DistinctIds(inputs)
    requires forall i :: 0 <= i < |kept| ==> kept[i].id !in Ids(inputs)
    requires forall i :: 0 <= i < |replaced| ==> replaced[i].id in Ids(inputs)
    ensures MergeById(kept + replaced, inputs) == kept + inputs
  {
    OthersOfParts(kept, replaced, Ids(inputs));
    MergeIsReplacement(kept + replaced, inputs);
  }

  lemma KeptIds(rest: seq<InputDefinition>, inputs: seq<InputDefinition>, back: seq<InputDefinition>)
    requires |back| == |rest| + |inputs|
    requires forall i :: 0 <= i < |rest| ==> rest[i].id !in Ids(inputs)
    requires forall i :: 0 <= i < |back| ==> back[i].id == (rest + inputs)[i].id
    ensures forall i :: 0 <= i < |rest| ==> back[..|rest|][i].id !in Ids(inputs)
  {
    forall i | 0 <= i < |rest| ensures back[..|rest|][i].id !in Ids(inputs) {
      assert back[i].id == (rest + inputs)[i].id;
    }
  }

  lemma ReplacedIds(rest: seq<InputDefinition>, inputs: seq<InputDefinition>, back: seq<InputDefinition>)
    requires |back| == |rest| + |inputs|
    requires forall i :: 0 <= i < |back| ==> back[i].id == (rest + inputs)[i].id
    ensures forall i :: 0 <= i < |inputs| ==> back[|rest|..][i].id in Ids(inputs)
  {
    forall i | 0 <= i < |inputs| ensures back[|rest|..][i].id in Ids(inputs) {
      assert back[|rest| + i].id == (rest + inputs)[|rest| + i].id;
      assert inputs[i] in inputs;
    }
  }

  lemma OthersOfParts(kept: seq<InputDefinition>, replaced: seq<InputDefinition>, ids: set<string>)
    requires forall i :: 0 <= i < |kept| ==> kept[i].id !in ids
    requires forall i :: 0 <= i < |replaced| ==> replaced[i].id in ids
    ensures Others(kept + replaced, ids) == kept
  {
    OthersAppend(kept, replaced, ids);
    OthersKeepsAll(kept, ids);
    OthersDropsAll(replaced, ids);
  }

  /** Storing the same import twice is storing it once: what makes a replayed import safe. The
      imported lists may be of any length, because a replay does not read them back. */
  lemma ImportReplays(doc: seq<SdkInput>, inputs: seq<InputDefinition>, portable: Portability)
    requires UntouchedInOrder(doc, inputs)
    requires Acceptable(inputs, portable) && NormalizedAll(inputs) == inputs
    requires ImportedDocument(doc, inputs, portable).Some?
    ensures ImportedDocument(ImportedDocument(doc, inputs, portable).value, inputs, portable)
         == ImportedDocument(doc, inputs, portable)
  {
    PrepareIdempotent(inputs, portable);
    var rest := Others(DecodeAll(doc), Ids(inputs));
    MergeIsReplacement(DecodeAll(doc), inputs);
    OthersMembers(DecodeAll(doc), Ids(inputs));
    RestInOrder(doc, inputs);
    var back := DecodeAll(EncodeAll(NormalizedAll(rest + inputs)));
    RestSurvives(rest, inputs, portable);
    forall i | 0 <= i < |rest| ensures rest[i].id !in Ids(inputs) { assert rest[i] in rest; }
    MergeAgain(rest, inputs, back);
    StoredAgain(rest, inputs, back, portable);
  }

  /** Ids come back; what is left alone comes back accepted, and would be stored as before. */
  lemma RestSurvives(rest: seq<InputDefinition>, inputs: seq<InputDefinition>, portable: Portability)
    requires Acceptable(rest + inputs, portable) && DefinitionsInOrder(rest)
    ensures var back := DecodeAll(EncodeAll(NormalizedAll(rest + inputs)));
      && |back| == |rest + inputs|
      && (forall i :: 0 <= i < |back| ==> back[i].id == (rest + inputs)[i].id)
      && (forall i :: 0 <= i < |rest| ==> Restores(back[i], rest[i], portable))
  {
    forall i | 0 <= i < |rest|
      ensures Restores(DecodeAll(EncodeAll(NormalizedAll(rest + inputs)))[i], rest[i], portable)
    {
      assert RefusalAt(rest + inputs, i, portable) == None && rest[i] in rest && (rest + inputs)[i] == rest[i];
      StoredDefinitionSurvives(rest[i], portable);
    }
  }

  /** A definition read back is accepted, and would be stored as the one it comes from. */
  predicate Restores(back: InputDefinition, d: InputDefinition, portable: Portability) {
    Refusal(back, portable) == None && ToSdk(Normalized(back)) == ToSdk(Normalized(d))
  }

  /** Definitions read back, with the imported ones in place of their copies, are accepted and
      stored as before. */
  lemma StoredAgain(rest: seq<InputDefinition>, inputs: seq<InputDefinition>, back: seq<InputDefinition>,
                    portable: Portability)
    requires Acceptable(rest + inputs, portable) && |back| == |rest + inputs|
    requires forall i :: 0 <= i < |back| ==> back[i].id == (rest + inputs)[i].id
    requires forall i :: 0 <= i < |rest| ==> Restores(back[i], rest[i], portable)
    ensures Acceptable(back[..|rest|] + inputs, portable)
    ensures EncodeAll(NormalizedAll(back[..|rest|] + inputs)) == EncodeAll(NormalizedAll(rest + inputs))
  {
    SameIdsSameAcceptance(rest + inputs, back[..|rest|] + inputs, portable);
  }

  lemma SameIdsSameAcceptance(ds: seq<InputDefinition>, again: seq<InputDefinition>, portable: Portability)
    requires Acceptable(ds, portable) && |again| == |ds|
    requires forall i :: 0 <= i < |ds| ==> again[i].id == ds[i].id
    requires forall i :: 0 <= i < |ds| ==> again[i] == ds[i] || Refusal(again[i], portable) == None
    ensures Acceptable(again, portable)
  {
    forall i | 0 <= i < |again| ensures RefusalAt(again, i, portable) == None {
      assert RefusalAt(ds, i, portable) == None;
    }
  }

  // ---------- Exactly how long a kept list may be ----------

  lemma DecodedListsDetermine(x: map<string, string>, y: map<string, string>)
    requires x.Keys == y.Keys && DecodeArguments(x) == DecodeArguments(y)
    ensures x == y
  {
    var keys := SortedKeys(x.Keys);
    SortedKeysSound(x.Keys);
    forall k | k in x ensures x[k] == y[k] {
      var i :| 0 <= i < |keys| && keys[i] == k;
      assert x[k] == DecodeArguments(x)[i] && y[k] == DecodeArguments(y)[i];
    }
  }

  /** Two lists of a length that come back the same were the same. */
  lemma ComesBackInjectively(a: seq<string>, b: seq<string>)
    requires |a| == |b| && DecodeArguments(EncodeArguments(a)) == DecodeArguments(EncodeArguments(b))
    ensures a == b
  {
    EncodedKeys(a, b);
    DecodedListsDetermine(EncodeArguments(a), EncodeArguments(b));
    EncodeArgumentsInjective(a, b);
  }

  lemma EncodedKeys(a: seq<string>, b: seq<string>)
    requires |a| == |b|
    ensures EncodeArguments(a).Keys == EncodeArguments(b).Keys
  {
    EncodeArgumentsEntries(a);
    EncodeArgumentsEntries(b);
  }

  /** Beyond the limit, a list that is read and written twice differs from one written once. */
  lemma RewrittenListsDiffer(n: nat)
    requires n > KEYED_ARGUMENTS
    ensures var once := DecodeArguments(EncodeArguments(ArgumentKeys(n)));
      EncodeArguments(DecodeArguments(EncodeArguments(once))) != EncodeArguments(once)
  {
    var args := ArgumentKeys(n);
    var once := DecodeArguments(EncodeArguments(args));
    var twice := DecodeArguments(EncodeArguments(once));
    KeysAsArguments(n);
    EncodeArgumentsEntries(args);
    SortedKeysSound(EncodeArguments(args).Keys);
    if EncodeArguments(twice) == EncodeArguments(once) {
      EncodeArgumentsInjective(twice, once);
      ComesBackInjectively(once, args);
    }
  }

  const AnyArguments: Portability := (args: seq<string>) => true

  /** One stored command, and an import of another input. */
  function LongDocument(args: seq<string>): seq<SdkInput> {
    [SdkCommand("a", "a", "c", Some(EncodeArguments(args)))]
  }

  const OTHER: seq<InputDefinition> := [PromptString("b", None, None, None, None)]

  /** The stored lists an import leaves alone have at most `n` arguments. */
  ghost predicate UntouchedUpTo(doc: seq<SdkInput>, inputs: seq<InputDefinition>, n: nat) {
    forall s :: s in doc && s.SdkCommand? && s.args.Some? ==> s.id in Ids(inputs) || |s.args.value| <= n
  }

  /** The import can be stored, and storing it again changes nothing. */
  ghost predicate Replays(doc: seq<SdkInput>, inputs: seq<InputDefinition>, portable: Portability) {
    Acceptable(inputs, portable) && NormalizedAll(inputs) == inputs && ImportedDocument(doc, inputs, portable).Some? ==>
      ImportedDocument(ImportedDocument(doc, inputs, portable).value, inputs, portable)
        == ImportedDocument(doc, inputs, portable)
  }

  lemma OtherIsAccepted(d: InputDefinition)
    requires d.Command? && d.id == "a" && d.command == "c"
    ensures Acceptable(OTHER, AnyArguments) && NormalizedAll(OTHER) == OTHER
    ensures Acceptable([d] + OTHER, AnyArguments)
  {
    assert Trim("a") == "a" && Trim("b") == "b" && Trim("c") == "c";
    assert Normalized(OTHER[0]) == OTHER[0];
    var both := [d] + OTHER;
    assert both[0] == d && both[1] == OTHER[0];
    assert RefusalAt(both, 0, AnyArguments) == None && RefusalAt(both, 1, AnyArguments) == None;
  }

  lemma OtherIsAppended(d: InputDefinition)
    requires d.id == "a"
    ensures MergeById([d], OTHER) == [d] + OTHER
    ensures forall o: InputDefinition :: o.id == "b" ==> MergeById([d, o], OTHER) == [d] + OTHER
  {
    assert OTHER[1..] == [];
    assert Without([d], "b") == [d];
    forall o: InputDefinition | o.id == "b" ensures Without([d, o], "b") == [d] {
      assert [d, o][1..] == [o] && [o][1..] == [];
    }
  }

  /** What the import of the other input makes of the stored command. */
  lemma LongDocumentImported(doc: seq<SdkInput>, args: map<string, string>)
    requires doc == [SdkCommand("a", "a", "c", Some(args))]
      || doc == [SdkCommand("a", "a", "c", Some(args)), ToSdk(OTHER[0])]
    ensures ImportedDocument(doc, OTHER, AnyArguments)
         == Some([SdkCommand("a", "a", "c", Some(EncodeArguments(DecodeArguments(args)))), ToSdk(OTHER[0])])
  {
    var d := FromSdk(doc[0]);
    OtherIsAccepted(d);
    OtherIsAppended(d);
    assert DecodeAll(doc) == [d] || DecodeAll(doc) == [d, FromSdk(ToSdk(OTHER[0]))];
    assert MergedDefinitions(doc, OTHER) == [d] + OTHER;
    assert Trim("a") == "a" && Trim("c") == "c";
    assert EncodeAll(NormalizedAll([d] + OTHER)) == [ToSdk(Normalized(d)), ToSdk(Normalized(OTHER[0]))];
  }

  lemma LongDocumentDoesNotReplay(n: nat)
    requires n > KEYED_ARGUMENTS
    ensures !Replays(LongDocument(ArgumentKeys(n)), OTHER, AnyArguments)
    ensures UntouchedUpTo(LongDocument(ArgumentKeys(n)), OTHER, n)
  {
    var args := EncodeArguments(ArgumentKeys(n));
    var once := EncodeArguments(DecodeArguments(args));
    EncodeArgumentsEntries(ArgumentKeys(n));
    RewrittenListsDiffer(n);
    OtherIsAccepted(FromSdk(LongDocument(ArgumentKeys(n))[0]));
    LongDocumentImported(LongDocument(ArgumentKeys(n)), args);
    LongDocumentImported([SdkCommand("a", "a", "c", Some(once)), ToSdk(OTHER[0])], once);
  }

  /** A replay is harmless for every document and import if and only if the lists that the import
      leaves alone have at most a million arguments. */
  lemma ImportReplaysExactly(n: nat)
    ensures (forall doc, inputs, portable :: UntouchedUpTo(doc, inputs, n) ==> Replays(doc, inputs, portable))
       <==> n <= KEYED_ARGUMENTS
  {
    if n <= KEYED_ARGUMENTS {
      forall doc, inputs, portable | UntouchedUpTo(doc, inputs, n) ensures Replays(doc, inputs, portable) {
        if Acceptable(inputs, portable) && NormalizedAll(inputs) == inputs
          && ImportedDocument(doc, inputs, portable).Some?
        {
          ImportReplays(doc, inputs, portable);
        }
      }
    } else {
      LongDocumentDoesNotReplay(n);
    }
  }

  function ArgumentCount(d: InputDefinition): nat {
    if d.Command? && d.args.Some? then |d.args.value| else 0
  }

  /** Read back and stored again, a definition is stored the same. */
  predicate Survives(d: InputDefinition) {
    ToSdk(Normalized(FromSdk(ToSdk(Normalized(d))))) == ToSdk(Normalized(d))
  }

  lemma LongCommandChanges(n: nat)
    requires n > KEYED_ARGUMENTS
    ensures !Survives(Command("a", None, "c", Some(ArgumentKeys(n))))
  {
    var args := ArgumentKeys(n);
    KeysAsArguments(n);
    if EncodeArguments(DecodeArguments(EncodeArguments(args))) == EncodeArguments(args) {
      EncodeArgumentsInjective(DecodeArguments(EncodeArguments(args)), args);
    }
  }

  /** Accepted definitions survive storage, for every definition with `n` arguments, if and only if
      `n` is at most a million. */
  lemma StoredDefinitionSurvivesExactly(n: nat)
    ensures (forall d :: ArgumentCount(d) == n && ValidId(d.id) && Refusal(d, AnyArguments) == None ==> Survives(d))
       <==> n <= KEYED_ARGUMENTS
  {
    if n <= KEYED_ARGUMENTS {
      forall d | ArgumentCount(d) == n && ValidId(d.id) && Refusal(d, AnyArguments) == None ensures Survives(d) {
        StoredDefinitionSurvives(d, AnyArguments);
      }
    } else {
      var d := Command("a", None, "c", Some(ArgumentKeys(n)));
      LongCommandChanges(n);
      assert Trim("a") == "a" && Trim("c") == "c";
      assert ArgumentCount(d) == n && ValidId(d.id) && Refusal(d, AnyArguments) == None;
    }
  }
}
