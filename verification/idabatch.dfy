/** The batch-apply procedure of the metadata-apply script: the dump's categories,
    each applied record by record through the host calls of `IdaHost`. */
module IdaBatch {
  import opened Wrappers
  import opened Numerals
  import opened IdaHost

  datatype MethodEntry = MethodEntry(address: int, name: string, signature: string)
  datatype StringEntry = StringEntry(address: int, value: string)
  datatype MetadataEntry = MetadataEntry(address: int, name: string, signature: Option<string>)
  datatype MetaMethodEntry = MetaMethodEntry(address: int, name: string, methodAddress: int)

  /** The decoded dump; a missing key is `None`. */
  datatype Dump = Dump(
    addresses: Option<seq<int>>,
    methods: Option<seq<MethodEntry>>,
    strings: Option<seq<StringEntry>>,
    metadata: Option<seq<MetadataEntry>>,
    metaMethods: Option<seq<MetaMethodEntry>>)

  datatype Category = Addresses | ScriptMethod | ScriptString | ScriptMetadata | ScriptMetadataMethod

  function Key(c: Category): string {
    match c
    case Addresses => "Addresses"
    case ScriptMethod => "ScriptMethod"
    case ScriptString => "ScriptString"
    case ScriptMetadata => "ScriptMetadata"
    case ScriptMetadataMethod => "ScriptMetadataMethod"
  }

  /** The script's `processFields` list, in its own order. */
  const ProcessFields: seq<string> :=
    ["ScriptMethod", "ScriptString", "ScriptMetadata", "ScriptMetadataMethod", "Addresses"]

  /** The order of the five `if` blocks in the script. */
  const CodeOrder: seq<Category> :=
    [Addresses, ScriptMethod, ScriptString, ScriptMetadata, ScriptMetadataMethod]

  function Rank(c: Category): nat {
    match c
    case Addresses => 0
    case ScriptMethod => 1
    case ScriptString => 2
    case ScriptMetadata => 3
    case ScriptMetadataMethod => 4
  }

  predicate Present(d: Dump, c: Category) {
    match c
    case Addresses => d.addresses.Some?
    case ScriptMethod => d.methods.Some?
    case ScriptString => d.strings.Some?
    case ScriptMetadata => d.metadata.Some?
    case ScriptMetadataMethod => d.metaMethods.Some?
  }

  /** `key in data and key in processFields`. */
  predicate Enabled(d: Dump, fields: seq<string>, c: Category) {
    Present(d, c) && Key(c) in fields
  }

  /** The new calls made for `entries[i..]`, each entry's step seeing every call made
      before it. */
  function ForEach<E>(entries: seq<E>, step: (seq<Call>, nat, E) -> seq<Call>,
                      history: seq<Call>, i: nat): seq<Call>
    requires i <= |entries|
    decreases |entries| - i
  {
    if i == |entries| then []
    else
      var calls := step(history, i, entries[i]);
      calls + ForEach(entries, step, history + calls, i + 1)
  }

  // ---------------------------------------------------------------- Addresses

  /** The `range(len(addresses) - 1)` loop's resolved `(start, end)` pairs. */
  function FunctionRanges(imageBase: int, offsets: seq<int>): (ranges: seq<(int, int)>)
    ensures |ranges| == if |offsets| == 0 then 0 else |offsets| - 1
    ensures forall i :: 0 <= i < |ranges| ==>
              ranges[i] == (GetAddr(imageBase, offsets[i]), GetAddr(imageBase, offsets[i + 1]))
  {
    var total := |offsets| - 1;
    if total <= 0 then []
    else seq(total, i requires 0 <= i < total => (GetAddr(imageBase, offsets[i]), GetAddr(imageBase, offsets[i + 1])))
  }

  /** Moving the image base moves every function range by the same amount. */
  lemma FunctionRangesShift(imageBase: int, delta: int, offsets: seq<int>)
    ensures var shifted := FunctionRanges(imageBase + delta, offsets);
            var ranges := FunctionRanges(imageBase, offsets);
            |shifted| == |ranges| &&
            forall i :: 0 <= i < |ranges| ==>
              shifted[i] == (ranges[i].0 + delta, ranges[i].1 + delta)
  {
  }

  function MakeFunctionStep(host: Host): (seq<Call>, nat, (int, int)) -> seq<Call>
  {
    (history: seq<Call>, i: nat, r: (int, int)) => MakeFunctionCalls(host, history, r.0, r.1)
  }

  function AddressCalls(host: Host, imageBase: int, offsets: seq<int>, history: seq<Call>): seq<Call>
  {
    ForEach(FunctionRanges(imageBase, offsets), MakeFunctionStep(host), history, 0)
  }

  /** The values `pick` draws from the calls, in call order. */
  function Collect<T>(calls: seq<Call>, pick: Call -> Option<T>): seq<T>
  {
    if |calls| == 0 then []
    else (match pick(calls[0]) case Some(x) => [x] case None => []) + Collect(calls[1..], pick)
  }

  lemma {:induction false} CollectAppend<T>(a: seq<Call>, b: seq<Call>, pick: Call -> Option<T>)
    ensures Collect(a + b, pick) == Collect(a, pick) + Collect(b, pick)
  {
    if |a| > 0 {
      assert (a + b)[0] == a[0];
      assert (a + b)[1..] == a[1..] + b;
      CollectAppend(a[1..], b, pick);
    } else {
      assert a + b == b;
    }
  }

  lemma {:induction false} CollectNone<T>(calls: seq<Call>, pick: Call -> Option<T>)
    requires forall k :: 0 <= k < |calls| ==> pick(calls[k]).None?
    ensures Collect(calls, pick) == []
  {
    if |calls| > 0 {
      CollectNone(calls[1..], pick);
    }
  }

  function AddedRange(c: Call): Option<(int, int)>
  {
    if c.AddFunc? then Some((c.start, c.end)) else None
  }

  /** The `(start, end)` of every `add_func` call, in order. */
  function AddedRanges(calls: seq<Call>): seq<(int, int)>
  {
    Collect(calls, AddedRange)
  }

  lemma OneAddedRange(host: Host, history: seq<Call>, start: int, end: int)
    ensures var calls := MakeFunctionCalls(host, history, start, end);
            var last := calls[|calls| - 1];
            AddedRanges(calls) == [(start, last.end)]
  {
    var calls := MakeFunctionCalls(host, history, start, end);
    var n := |calls|;
    CollectAppend(calls[..n - 1], [calls[n - 1]], AddedRange);
    assert calls == calls[..n - 1] + [calls[n - 1]];
    CollectNone(calls[..n - 1], AddedRange);
    assert Collect([calls[n - 1]], AddedRange) == [(start, calls[n - 1].end)];
  }

  lemma {:induction false} AddedRangesOfForEach(host: Host, ranges: seq<(int, int)>, history: seq<Call>, i: nat)
    requires i <= |ranges|
    ensures var added := AddedRanges(ForEach(ranges, MakeFunctionStep(host), history, i));
            |added| == |ranges| - i &&
            forall k :: 0 <= k < |added| ==> added[k].0 == ranges[i + k].0 && added[k].1 <= ranges[i + k].1
    decreases |ranges| - i
  {
    if i < |ranges| {
      var calls := MakeFunctionCalls(host, history, ranges[i].0, ranges[i].1);
      var rest := ForEach(ranges, MakeFunctionStep(host), history + calls, i + 1);
      assert ForEach(ranges, MakeFunctionStep(host), history, i) == calls + rest;
      CollectAppend(calls, rest, AddedRange);
      OneAddedRange(host, history, ranges[i].0, ranges[i].1);
      AddedRangesOfForEach(host, ranges, history + calls, i + 1);
    }
  }

  /** The Addresses block makes exactly `max(n - 1, 0)` functions, in order, the
      i-th starting at the i-th resolved offset and ending no later than the next. */
  lemma AddressBlockRanges(host: Host, imageBase: int, offsets: seq<int>, history: seq<Call>)
    ensures var added := AddedRanges(AddressCalls(host, imageBase, offsets, history));
            |added| == (if |offsets| == 0 then 0 else |offsets| - 1) &&
            forall k :: 0 <= k < |added| ==>
              added[k].0 == GetAddr(imageBase, offsets[k]) &&
              added[k].1 <= GetAddr(imageBase, offsets[k + 1])
  {
    AddedRangesOfForEach(host, FunctionRanges(imageBase, offsets), history, 0);
  }

  // ------------------------------------------------------------- ScriptMethod

  function TypedAddress(c: Call): Option<int>
  {
    if c.ApplyType? then Some(c.ea) else None
  }

  /** The address of every `apply_type` call, in order. */
  function TypedAddresses(calls: seq<Call>): seq<int>
  {
    Collect(calls, TypedAddress)
  }

  lemma RenamesAreUntyped(host: Host, history: seq<Call>, ea: int, name: string)
    ensures TypedAddresses(SetNameCalls(host, history, ea, name)) == []
  {
    CollectNone(SetNameCalls(host, history, ea, name), TypedAddress);
  }

  /** A method is renamed, then typed with its signature whether or not the rename
      succeeded; the type is applied once, at the method's address. */
  function MethodCalls(host: Host, imageBase: int, history: seq<Call>, m: MethodEntry): (calls: seq<Call>)
    ensures var ea := GetAddr(imageBase, m.address);
            var named := SetNameCalls(host, history, ea, m.name);
            && named <= calls && |calls| == |named| + 1
            && calls[|named|] == ApplyType(ea, m.signature)
            && TypedAddresses(calls) == [ea]
  {
    var ea := GetAddr(imageBase, m.address);
    var named := SetNameCalls(host, history, ea, m.name);
    RenamesAreUntyped(host, history, ea, m.name);
    CollectAppend(named, [ApplyType(ea, m.signature)], TypedAddress);
    assert TypedAddresses([ApplyType(ea, m.signature)]) == [ea];
    named + [ApplyType(ea, m.signature)]
  }

  function MethodStep(host: Host, imageBase: int): (seq<Call>, nat, MethodEntry) -> seq<Call>
  {
    (history: seq<Call>, i: nat, m: MethodEntry) => MethodCalls(host, imageBase, history, m)
  }

  /** Resolved addresses of the methods, in order. */
  function MethodAddresses(imageBase: int, methods: seq<MethodEntry>): (eas: seq<int>)
    ensures |eas| == |methods|
    ensures forall k :: 0 <= k < |methods| ==> eas[k] == GetAddr(imageBase, methods[k].address)
  {
    if |methods| == 0 then []
    else [GetAddr(imageBase, methods[0].address)] + MethodAddresses(imageBase, methods[1..])
  }

  /** The ScriptMethod block applies a type to every method, whether or not its
      rename succeeded, in the order of the dump. */
  lemma {:induction false} MethodBlockTypes(host: Host, imageBase: int, methods: seq<MethodEntry>,
                                            history: seq<Call>, i: nat)
    requires i <= |methods|
    ensures TypedAddresses(ForEach(methods, MethodStep(host, imageBase), history, i))
         == MethodAddresses(imageBase, methods[i..])
    decreases |methods| - i
  {
    if i < |methods| {
      var head := MethodCalls(host, imageBase, history, methods[i]);
      var rest := ForEach(methods, MethodStep(host, imageBase), history + head, i + 1);
      assert ForEach(methods, MethodStep(host, imageBase), history, i) == head + rest;
      CollectAppend(head, rest, TypedAddress);
      MethodBlockTypes(host, imageBase, methods, history + head, i + 1);
      assert methods[i..][1..] == methods[i + 1..];
    }
  }

  // ------------------------------------------------------------- ScriptString

  /** `f"StringLiteral_{index + 1}"`. */
  function StringLiteralName(index: nat): (name: string)
    ensures |name| > 14 && name[..14] == "StringLiteral_"
    ensures IsDecimalOf(name[14..], index + 1)
  {
    var name := "StringLiteral_" + Decimal(index + 1);
    assert name[14..] == Decimal(index + 1);
    name
  }

  /** Different positions give different names. */
  lemma StringLiteralNamesDistinct(i: nat, j: nat)
    requires i != j
    ensures StringLiteralName(i) != StringLiteralName(j)
  {
  }

  /** A string is named `StringLiteral_<index+1>` without the retry of `set_name`,
      then commented with its value; no type is applied. */
  function StringCalls(imageBase: int, index: nat, s: StringEntry): (calls: seq<Call>)
    ensures var ea := GetAddr(imageBase, s.address);
            && |calls| == 2
            && calls[0].SetName? && calls[0].ea == ea && calls[0].flags == NoWarn
            && |calls[0].name| > 14 && calls[0].name[..14] == "StringLiteral_"
            && IsDecimalOf(calls[0].name[14..], index + 1)
            && calls[1] == SetCmt(ea, s.value, true)
            && TypedAddresses(calls) == []
  {
    var ea := GetAddr(imageBase, s.address);
    var calls := [SetName(ea, StringLiteralName(index), NoWarn), SetCmt(ea, s.value, true)];
    CollectNone(calls, TypedAddress);
    calls
  }

  function StringStep(imageBase: int): (seq<Call>, nat, StringEntry) -> seq<Call>
  {
    (history: seq<Call>, i: nat, s: StringEntry) => StringCalls(imageBase, i, s)
  }

  /** The two calls for string `k` sit at positions `2 * (k - i)` and after. */
  predicate StringCallsAt(calls: seq<Call>, imageBase: int, strings: seq<StringEntry>, i: nat, k: nat)
    requires i <= k < |strings| && |calls| == 2 * (|strings| - i)
  {
    var ea := GetAddr(imageBase, strings[k].address);
    && calls[2 * (k - i)] == SetName(ea, StringLiteralName(k), NoWarn)
    && calls[2 * (k - i) + 1] == SetCmt(ea, strings[k].value, true)
  }

  /** The ScriptString block makes two calls per string and no rename retry: the
      string at position k is named `StringLiteral_<k+1>` and commented with its
      value. */
  lemma {:induction false} StringBlockCalls(imageBase: int, strings: seq<StringEntry>, history: seq<Call>, i: nat)
    requires i <= |strings|
    ensures var calls := ForEach(strings, StringStep(imageBase), history, i);
            |calls| == 2 * (|strings| - i) &&
            forall k :: i <= k < |strings| ==> StringCallsAt(calls, imageBase, strings, i, k)
    decreases |strings| - i
  {
    if i < |strings| {
      var head := StringCalls(imageBase, i, strings[i]);
      var rest := ForEach(strings, StringStep(imageBase), history + head, i + 1);
      var calls := ForEach(strings, StringStep(imageBase), history, i);
      assert calls == head + rest;
      StringBlockCalls(imageBase, strings, history + head, i + 1);
      assert StringCallsAt(calls, imageBase, strings, i, i);
      forall k | i < k < |strings|
        ensures StringCallsAt(calls, imageBase, strings, i, k)
      {
        StringCallsShift(head, rest, imageBase, strings, i, k);
      }
    }
  }

  lemma StringCallsShift(head: seq<Call>, rest: seq<Call>, imageBase: int, strings: seq<StringEntry>, i: nat, k: nat)
    requires |head| == 2 && i < k < |strings| && |rest| == 2 * (|strings| - i - 1)
    requires StringCallsAt(rest, imageBase, strings, i + 1, k)
    ensures StringCallsAt(head + rest, imageBase, strings, i, k)
  {
    assert (head + rest)[2 * (k - i)] == rest[2 * (k - i - 1)];
    assert (head + rest)[2 * (k - i) + 1] == rest[2 * (k - i - 1) + 1];
  }

  // ----------------------------------------------------------- ScriptMetadata

  /** `if m_item.get("Signature"):` — absent, `null` and "" all skip `apply_type`. */
  predicate HasSignature(m: MetadataEntry) {
    m.signature.Some? && m.signature.value != ""
  }

  function MetadataCalls(host: Host, imageBase: int, history: seq<Call>, m: MetadataEntry): (calls: seq<Call>)
    ensures var ea := GetAddr(imageBase, m.address);
            var named := SetNameCalls(host, history, ea, m.name);
            && named <= calls && |calls| > |named|
            && calls[|named|] == SetCmt(ea, m.name, true)
            && (HasSignature(m) <==> |calls| == |named| + 2)
            && (!HasSignature(m) ==> |calls| == |named| + 1)
            && (HasSignature(m) ==> calls[|named| + 1] == ApplyType(ea, m.signature.value))
            && TypedAddresses(calls) == (if HasSignature(m) then [ea] else [])
  {
    var ea := GetAddr(imageBase, m.address);
    var named := SetNameCalls(host, history, ea, m.name);
    var typed := if HasSignature(m) then [ApplyType(ea, m.signature.value)] else [];
    var tail := [SetCmt(ea, m.name, true)] + typed;
    RenamesAreUntyped(host, history, ea, m.name);
    CollectAppend(named, tail, TypedAddress);
    assert TypedAddresses(tail) == (if HasSignature(m) then [ea] else []) by {
      CollectAppend([SetCmt(ea, m.name, true)], typed, TypedAddress);
      assert TypedAddresses([SetCmt(ea, m.name, true)]) == [];
      assert TypedAddresses(typed) == (if HasSignature(m) then [ea] else []);
    }
    assert named + [SetCmt(ea, m.name, true)] + typed == named + tail;
    named + tail
  }

  function MetadataStep(host: Host, imageBase: int): (seq<Call>, nat, MetadataEntry) -> seq<Call>
  {
    (history: seq<Call>, i: nat, m: MetadataEntry) => MetadataCalls(host, imageBase, history, m)
  }

  /** Resolved addresses of the entries that carry a signature, in order. */
  function SignedAddresses(imageBase: int, entries: seq<MetadataEntry>): seq<int>
  {
    if |entries| == 0 then []
    else (if HasSignature(entries[0]) then [GetAddr(imageBase, entries[0].address)] else [])
         + SignedAddresses(imageBase, entries[1..])
  }

  /** The ScriptMetadata block applies a type exactly to the entries with a
      non-empty signature, in the order of the dump. */
  lemma {:induction false} MetadataBlockTypes(host: Host, imageBase: int, entries: seq<MetadataEntry>,
                                              history: seq<Call>, i: nat)
    requires i <= |entries|
    ensures TypedAddresses(ForEach(entries, MetadataStep(host, imageBase), history, i))
         == SignedAddresses(imageBase, entries[i..])
    decreases |entries| - i
  {
    if i < |entries| {
      var head := MetadataCalls(host, imageBase, history, entries[i]);
      var rest := ForEach(entries, MetadataStep(host, imageBase), history + head, i + 1);
      assert ForEach(entries, MetadataStep(host, imageBase), history, i) == head + rest;
      CollectAppend(head, rest, TypedAddress);
      MetadataBlockTypes(host, imageBase, entries, history + head, i + 1);
      assert entries[i..][1..] == entries[i + 1..];
    }
  }

  // ----------------------------------------------------- ScriptMetadataMethod

  /** The second comment is the resolved method address in upper-case hex, without
      a prefix; the first is the name. */
  function MetaMethodCalls(host: Host, imageBase: int, history: seq<Call>, mm: MetaMethodEntry): (calls: seq<Call>)
    ensures var ea := GetAddr(imageBase, mm.address);
            var named := SetNameCalls(host, history, ea, mm.name);
            var target := GetAddr(imageBase, mm.methodAddress);
            && named <= calls && |calls| == |named| + 2
            && calls[|named|] == SetCmt(ea, mm.name, true)
            && TypedAddresses(calls) == []
            && (var last := calls[|named| + 1];
                && last.SetCmt? && last.ea == ea && !last.repeatable
                && (target >= 0 ==> IsUpperHexOf(last.comment, target))
                && (target < 0 ==> |last.comment| > 1 && last.comment[0] == '-' &&
                                   IsUpperHexOf(last.comment[1..], -target)))
  {
    var ea := GetAddr(imageBase, mm.address);
    var target := GetAddr(imageBase, mm.methodAddress);
    var calls := SetNameCalls(host, history, ea, mm.name) + [SetCmt(ea, mm.name, true), SetCmt(ea, IntHexUpper(target), false)];
    CollectNone(calls, TypedAddress);
    calls
  }

  function MetaMethodStep(host: Host, imageBase: int): (seq<Call>, nat, MetaMethodEntry) -> seq<Call>
  {
    (history: seq<Call>, i: nat, mm: MetaMethodEntry) => MetaMethodCalls(host, imageBase, history, mm)
  }

  // --------------------------------------------------------------- the script

  /** The calls one category's block makes. */
  function CategoryCalls(c: Category, d: Dump, host: Host, imageBase: int, history: seq<Call>): seq<Call>
  {
    match c
    case Addresses =>
      if d.addresses.None? then [] else AddressCalls(host, imageBase, d.addresses.value, history)
    case ScriptMethod =>
      if d.methods.None? then []
      else ForEach(d.methods.value, MethodStep(host, imageBase), history, 0)
    case ScriptString =>
      if d.strings.None? then [] else ForEach(d.strings.value, StringStep(imageBase), history, 0)
    case ScriptMetadata =>
      if d.metadata.None? then []
      else ForEach(d.metadata.value, MetadataStep(host, imageBase), history, 0)
    case ScriptMetadataMethod =>
      if d.metaMethods.None? then []
      else ForEach(d.metaMethods.value, MetaMethodStep(host, imageBase), history, 0)
  }

  /** The guarded blocks for `cats`, in order. */
  function GuardedBlocks(cats: seq<Category>, d: Dump, fields: seq<string>, host: Host,
                         imageBase: int, history: seq<Call>): seq<Call>
  {
    if |cats| == 0 then []
    else
      var calls := if Enabled(d, fields, cats[0]) then CategoryCalls(cats[0], d, host, imageBase, history) else [];
      calls + GuardedBlocks(cats[1..], d, fields, host, imageBase, history + calls)
  }

  /** Every call the script makes between loading the dump and saving: the blocks
      of the processed categories, in code order, each seeing the calls before it;
      a skipped category makes no call. */
  function Run(d: Dump, fields: seq<string>, host: Host, imageBase: int): (calls: seq<Call>)
    ensures calls == Blocks(CategoriesRun(d, fields), d, host, imageBase, [])
  {
    GuardedIsEnabledBlocks(CodeOrder, d, fields, host, imageBase, []);
    GuardedBlocks(CodeOrder, d, fields, host, imageBase, [])
  }

  /** The blocks for `cats`, run unconditionally, in order. */
  function Blocks(cats: seq<Category>, d: Dump, host: Host, imageBase: int, history: seq<Call>): seq<Call>
  {
    if |cats| == 0 then []
    else
      var calls := CategoryCalls(cats[0], d, host, imageBase, history);
      calls + Blocks(cats[1..], d, host, imageBase, history + calls)
  }

  /** The enabled categories of `cats`, keeping their order. */
  function EnabledOf(cats: seq<Category>, d: Dump, fields: seq<string>): (r: seq<Category>)
    ensures forall c :: c in r <==> c in cats && Enabled(d, fields, c)
    ensures forall k :: 0 <= k < |r| ==> exists j :: 0 <= j < |cats| && cats[j] == r[k]
  {
    if |cats| == 0 then []
    else (if Enabled(d, fields, cats[0]) then [cats[0]] else []) + EnabledOf(cats[1..], d, fields)
  }

  /** The categories the script processes: exactly those present in the dump and
      listed in `fields`, each once, in the code's order whatever the order of
      `fields`. */
  function CategoriesRun(d: Dump, fields: seq<string>): (r: seq<Category>)
    ensures forall c :: c in r <==> Present(d, c) && Key(c) in fields
    ensures Ascending(r)
  {
    var r := EnabledOf(CodeOrder, d, fields);
    assert forall c :: c in CodeOrder by {
      assert CodeOrder[0] == Addresses && CodeOrder[1] == ScriptMethod && CodeOrder[2] == ScriptString;
      assert CodeOrder[3] == ScriptMetadata && CodeOrder[4] == ScriptMetadataMethod;
    }
    assert forall k :: 0 <= k < |CodeOrder| ==> Rank(CodeOrder[k]) == k;
    assert Ascending(CodeOrder);
    RankSorted(CodeOrder, d, fields);
    r
  }

  /** Strictly increasing in code order, hence without repetition. */
  predicate Ascending(cats: seq<Category>) {
    forall a, b :: 0 <= a < b < |cats| ==> Rank(cats[a]) < Rank(cats[b])
  }

  lemma AscendingCons(c: Category, rest: seq<Category>)
    requires Ascending(rest)
    requires forall k :: 0 <= k < |rest| ==> Rank(c) < Rank(rest[k])
    ensures Ascending([c] + rest)
  {
    var r := [c] + rest;
    forall a, b | 0 <= a < b < |r|
      ensures Rank(r[a]) < Rank(r[b])
    {
      assert r[b] == rest[b - 1];
      if a > 0 {
        assert r[a] == rest[a - 1];
      }
    }
  }

  lemma {:induction false} RankSorted(cats: seq<Category>, d: Dump, fields: seq<string>)
    requires Ascending(cats)
    ensures Ascending(EnabledOf(cats, d, fields))
  {
    if |cats| > 0 {
      RankSorted(cats[1..], d, fields);
      var rest := EnabledOf(cats[1..], d, fields);
      forall k | 0 <= k < |rest|
        ensures Rank(cats[0]) < Rank(rest[k])
      {
        var j :| 0 <= j < |cats[1..]| && cats[1..][j] == rest[k];
        assert cats[j + 1] == rest[k];
      }
      if Enabled(d, fields, cats[0]) {
        AscendingCons(cats[0], rest);
        assert EnabledOf(cats, d, fields) == [cats[0]] + rest;
      } else {
        assert EnabledOf(cats, d, fields) == rest;
      }
    }
  }

  /** Skipped categories make no calls: the script's run is the unconditional run of
      the processed categories. */
  lemma {:induction false} GuardedIsEnabledBlocks(cats: seq<Category>, d: Dump, fields: seq<string>,
                                                  host: Host, imageBase: int, history: seq<Call>)
    ensures GuardedBlocks(cats, d, fields, host, imageBase, history)
         == Blocks(EnabledOf(cats, d, fields), d, host, imageBase, history)
  {
    if |cats| > 0 {
      var c := cats[0];
      var rest := EnabledOf(cats[1..], d, fields);
      if Enabled(d, fields, c) {
        var calls := CategoryCalls(c, d, host, imageBase, history);
        GuardedIsEnabledBlocks(cats[1..], d, fields, host, imageBase, history + calls);
        var r := EnabledOf(cats, d, fields);
        assert r == [c] + rest;
        assert r[0] == c && r[1..] == rest;
      } else {
        GuardedIsEnabledBlocks(cats[1..], d, fields, host, imageBase, history + []);
        assert history + [] == history;
        assert EnabledOf(cats, d, fields) == rest;
      }
    }
  }

  /** Only membership in `fields` matters, not its order or repetitions. */
  lemma {:induction false} GuardedFieldsOrderFree(cats: seq<Category>, d: Dump, fields: seq<string>,
                                                  fields': seq<string>, host: Host, imageBase: int,
                                                  history: seq<Call>)
    requires forall key :: key in fields <==> key in fields'
    ensures GuardedBlocks(cats, d, fields, host, imageBase, history)
         == GuardedBlocks(cats, d, fields', host, imageBase, history)
  {
    if |cats| > 0 {
      var calls := if Enabled(d, fields, cats[0]) then CategoryCalls(cats[0], d, host, imageBase, history) else [];
      GuardedFieldsOrderFree(cats[1..], d, fields, fields', host, imageBase, history + calls);
    }
  }

  lemma RunFieldsOrderFree(d: Dump, fields: seq<string>, fields': seq<string>, host: Host, imageBase: int)
    requires forall key :: key in fields <==> key in fields'
    ensures Run(d, fields, host, imageBase) == Run(d, fields', host, imageBase)
  {
    GuardedFieldsOrderFree(CodeOrder, d, fields, fields', host, imageBase, []);
  }

  /** With the script's own `processFields`, every category present in the dump is
      processed. */
  lemma ProcessFieldsEnableAll(d: Dump, c: Category)
    ensures Enabled(d, ProcessFields, c) <==> Present(d, c)
  {
  }
}
