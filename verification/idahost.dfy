/** The disassembler calls the metadata-apply script makes, and its own helpers
    `get_addr`, `set_name` and `make_function`. The host is an oracle: the value it
    returns for a call may depend on every call made before it, which is as much as
    any deterministic host can depend on. */
module IdaHost {
  import opened Wrappers
  import opened Numerals

  /** `SN_NOWARN` alone, or `SN_NOWARN | SN_NOCHECK`. */
  datatype NameFlags = NoWarn | NoWarnNoCheck

  datatype Call =
    | SetName(ea: int, name: string, flags: NameFlags)
    | GetNextFunc(ea: int)
      /** `get_func_attr(ea, FUNCATTR_START)` */
    | GetFuncStart(ea: int)
    | DelFunc(ea: int)
    | AddFunc(start: int, end: int)
    | SetCmt(ea: int, comment: string, repeatable: bool)
      /** `apply_type(ea, parse_decl(signature, 0), 1)` */
    | ApplyType(ea: int, signature: string)

  /** The host's return value for a call, given the calls made before it. */
  type Host = (seq<Call>, Call) -> int

  /** `get_addr`: a dump offset resolved against the image base. */
  function GetAddr(imageBase: int, offset: int): int
  {
    imageBase + offset
  }

  /** Moving the image base moves every resolved address by the same amount, and
      the offset is recovered from the resolved address. */
  lemma GetAddrShifts(imageBase: int, delta: int, offset: int)
    ensures GetAddr(imageBase + delta, offset) == GetAddr(imageBase, offset) + delta
    ensures GetAddr(imageBase, offset) - imageBase == offset
  {
  }

  /** `name + '_' + str(addr)`: the name tried after a failed rename. It keeps the
      requested name as a prefix, then '_', then the canonical decimal numeral of the
      address, after a minus sign when the address is negative. */
  function FallbackName(name: string, ea: int): (fallback: string)
    ensures fallback != name && name <= fallback
    ensures fallback[|name|] == '_'
    ensures ea >= 0 ==> IsDecimalOf(fallback[|name| + 1..], ea)
    ensures ea < 0 ==> var suffix := fallback[|name| + 1..];
                       |suffix| > 1 && suffix[0] == '-' && IsDecimalOf(suffix[1..], -ea)
  {
    var fallback := name + "_" + IntDecimal(ea);
    assert fallback[|name| + 1..] == IntDecimal(ea);
    fallback
  }

  /** `set_name`: at most two rename attempts; the second only when the first
      returned 0, and then with the address-suffixed name. */
  function SetNameCalls(host: Host, history: seq<Call>, ea: int, name: string): (calls: seq<Call>)
    ensures 1 <= |calls| <= 2
    ensures calls[0] == SetName(ea, name, NoWarnNoCheck)
    ensures |calls| == 2 <==> host(history, calls[0]) == 0
    ensures |calls| == 2 ==> calls[1] == SetName(ea, FallbackName(name, ea), NoWarnNoCheck)
    ensures forall k :: 0 <= k < |calls| ==> calls[k].SetName? && calls[k].ea == ea
  {
    var first := SetName(ea, name, NoWarnNoCheck);
    if host(history, first) == 0 then [first, SetName(ea, FallbackName(name, ea), NoWarnNoCheck)]
    else [first]
  }

  /** `make_function(start, end)`: ask for the next function start, clamp the end to
      it, delete a function that starts exactly at `start`, then add the range. */
  function MakeFunctionCalls(host: Host, history: seq<Call>, start: int, end: int): (calls: seq<Call>)
    ensures 3 <= |calls| <= 4
    ensures calls[0] == GetNextFunc(start) && calls[1] == GetFuncStart(start)
    ensures var next := host(history, calls[0]);
            var last := calls[|calls| - 1];
            && last.AddFunc? && last.start == start
            && last.end <= end && last.end <= next
            && (last.end == end || last.end == next)
    ensures DelFunc(start) in calls <==> host(history + [calls[0]], calls[1]) == start
    ensures |calls| == 4 <==> host(history + [calls[0]], calls[1]) == start
    ensures |calls| == 4 ==> calls[2] == DelFunc(start)
    ensures forall k :: 0 <= k < |calls| - 1 ==> !calls[k].AddFunc?
    ensures forall k :: 0 <= k < |calls| ==> calls[k].DelFunc? ==> calls[k] == DelFunc(start)
  {
    var askNext := GetNextFunc(start);
    var next := host(history, askNext);
    var end' := if next < end then next else end;
    var askStart := GetFuncStart(start);
    var existing := host(history + [askNext], askStart);
    var delete := if existing == start then [DelFunc(start)] else [];
    [askNext, askStart] + delete + [AddFunc(start, end')]
  }
}
