/** The query strings the hooks and the home page send and the routes read:
    parameter names, `URLSearchParams` as an append-only list of entries,
    and `get`, which answers the first value under a name. */
module QueryParams {
  import opened Optional
  import opened Seqs
  import opened Bounds

  /** Every parameter name a client sends or a route reads. */
  datatype ParamName =
    | MinTotalVolume | MaxTotalVolume
    | MinVolume24hr | MaxVolume24hr
    | MinVolume1wk
    | MinVolume1mo | MaxVolume1mo
    | MinVolume1yr
    | MinLiquidity | MaxLiquidity
    | MinYesPrice | MaxYesPrice | MinNoPrice | MaxNoPrice
    | MinOutcomeYesPrice | MaxOutcomeYesPrice | MinOutcomeNoPrice | MaxOutcomeNoPrice
    | New | Featured | EndingSoon | NegRisk | Search

  /** The name as it appears in the query string. */
  function Key(n: ParamName): string
  {
    match n
    case MinTotalVolume => "minTotalVolume"
    case MaxTotalVolume => "maxTotalVolume"
    case MinVolume24hr => "minVolume24hr"
    case MaxVolume24hr => "maxVolume24hr"
    case MinVolume1wk => "minVolume1wk"
    case MinVolume1mo => "minVolume1mo"
    case MaxVolume1mo => "maxVolume1mo"
    case MinVolume1yr => "minVolume1yr"
    case MinLiquidity => "minLiquidity"
    case MaxLiquidity => "maxLiquidity"
    case MinYesPrice => "minYesPrice"
    case MaxYesPrice => "maxYesPrice"
    case MinNoPrice => "minNoPrice"
    case MaxNoPrice => "maxNoPrice"
    case MinOutcomeYesPrice => "minOutcomeYesPrice"
    case MaxOutcomeYesPrice => "maxOutcomeYesPrice"
    case MinOutcomeNoPrice => "minOutcomeNoPrice"
    case MaxOutcomeNoPrice => "maxOutcomeNoPrice"
    case New => "new"
    case Featured => "featured"
    case EndingSoon => "endingSoon"
    case NegRisk => "negRisk"
    case Search => "search"
  }

  /** A parameter value: a number sent through `toString()`, which the
      routes' `parseFloat` reads back as the same number, or a text. */
  datatype ParamValue = Number(n: real) | Text(s: string)

  datatype Param = Param(name: ParamName, value: ParamValue)

  /** The `URLSearchParams` buffer a fetch fills. */
  class SearchParams {
    var entries: seq<Param>

    constructor ()
      ensures entries == []
    {
      entries := [];
    }

    /** `params.append(name, value)`. */
    method Append(name: ParamName, value: ParamValue)
      modifies this
      ensures entries == old(entries) + [Param(name, value)]
    {
      entries := entries + [Param(name, value)];
    }
  }

  /** `searchParams.get(name)`: the value of the first entry under `name`,
      or `None` (`null`) when there is none. */
  function Get(ps: seq<Param>, n: ParamName): Option<ParamValue>
  {
    if ps == [] then None
    else if ps[0].name == n then Some(ps[0].value)
    else Get(ps[1..], n)
  }

  /** `get` answers nothing exactly when no entry has the name, and otherwise
      the value of an entry under that name with none before it. */
  lemma {:induction false} GetFirst(ps: seq<Param>, n: ParamName)
    ensures Get(ps, n).None? <==> forall i :: 0 <= i < |ps| ==> ps[i].name != n
    ensures Get(ps, n).Some? ==> exists i :: 0 <= i < |ps| && ps[i] == Param(n, Get(ps, n).value)
                                   && forall j :: 0 <= j < i ==> ps[j].name != n
  {
    if ps != [] && ps[0].name != n {
      GetFirst(ps[1..], n);
      assert forall i :: 1 <= i < |ps| ==> ps[i] == ps[1..][i - 1];
      if Get(ps, n).Some? {
        var i :| 0 <= i < |ps[1..]| && ps[1..][i] == Param(n, Get(ps, n).value)
                 && forall j :: 0 <= j < i ==> ps[1..][j].name != n;
        assert ps[i + 1] == Param(n, Get(ps, n).value);
        forall j | 0 <= j < i + 1 ensures ps[j].name != n {
          if j > 0 {
            assert ps[j] == ps[1..][j - 1];
          }
        }
      }
    }
  }

  /** What a conditional `append` contributes: nothing, or one entry. */
  function Emitted(n: ParamName, v: Option<ParamValue>): seq<Param>
  {
    match v
    case None => []
    case Some(x) => [Param(n, x)]
  }

  /** The entries a builder appends when it visits the names of `order` in
      turn and appends `choose(n)` for each name whose condition holds.
      (Listing `choose` in the decreases clause keeps the verifier from
      unfolding the whole list when `order` is a literal.) */
  function Appended(order: seq<ParamName>, choose: ParamName -> Option<ParamValue>): seq<Param>
    decreases order, choose
  {
    if order == [] then [] else Emitted(order[0], choose(order[0])) + Appended(order[1..], choose)
  }

  function Names(ps: seq<Param>): seq<ParamName>
  {
    Map(ps, (p: Param) => p.name)
  }

  /** One more conditional `append` at the end of the builder. */
  lemma {:induction false} AppendedSnoc(done: seq<ParamName>, n: ParamName, choose: ParamName -> Option<ParamValue>)
    ensures Appended(done + [n], choose) == Appended(done, choose) + Emitted(n, choose(n))
  {
    if done != [] {
      AppendedSnoc(done[1..], n, choose);
      assert (done + [n])[1..] == done[1..] + [n];
    }
  }

  /** `if (condition) params.append(name, value)`, step `k` of a builder
      that visits the names of `order` in turn and sends `choose(n)` for each. */
  method AppendIf(buffer: SearchParams, condition: bool, name: ParamName, value: ParamValue,
                  ghost order: seq<ParamName>, ghost k: nat, ghost choose: ParamName -> Option<ParamValue>)
    requires k < |order| && order[k] == name
    requires buffer.entries == Appended(order[..k], choose)
    requires choose(name) == if condition then Some(value) else None
    modifies buffer
    ensures buffer.entries == Appended(order[..k + 1], choose)
  {
    if condition {
      buffer.Append(name, value);
    }
    AppendedSnoc(order[..k], name, choose);
    assert order[..k + 1] == order[..k] + [name];
  }

  /** The two conditional appends of one slider, `[lo, hi]`: the lower bound
      when above 0, the upper bound when below the slider's `threshold`. */
  method AppendRange(buffer: SearchParams, lo: real, hi: real, threshold: real,
                     minName: ParamName, maxName: ParamName,
                     ghost order: seq<ParamName>, ghost k: nat, ghost choose: ParamName -> Option<ParamValue>)
    requires k + 1 < |order| && order[k] == minName && order[k + 1] == maxName
    requires buffer.entries == Appended(order[..k], choose)
    requires choose(minName) == LowerParam(lo) && choose(maxName) == UpperParam(hi, threshold)
    modifies buffer
    ensures buffer.entries == Appended(order[..k + 2], choose)
  {
    AppendIf(buffer, lo > 0.0, minName, Number(lo), order, k, choose);
    AppendIf(buffer, hi < threshold, maxName, Number(hi), order, k + 1, choose);
  }

  /** `if (flag) params.append(name, 'true')`. */
  method AppendFlag(buffer: SearchParams, flag: bool, name: ParamName,
                    ghost order: seq<ParamName>, ghost k: nat, ghost choose: ParamName -> Option<ParamValue>)
    requires k < |order| && order[k] == name
    requires buffer.entries == Appended(order[..k], choose)
    requires choose(name) == FlagParam(flag)
    modifies buffer
    ensures buffer.entries == Appended(order[..k + 1], choose)
  {
    AppendIf(buffer, flag, name, Text("true"), order, k, choose);
  }

  /** `if (text) params.append(name, text)`. */
  method AppendText(buffer: SearchParams, text: string, name: ParamName,
                    ghost order: seq<ParamName>, ghost k: nat, ghost choose: ParamName -> Option<ParamValue>)
    requires k < |order| && order[k] == name
    requires buffer.entries == Appended(order[..k], choose)
    requires choose(name) == TextParam(text)
    modifies buffer
    ensures buffer.entries == Appended(order[..k + 1], choose)
  {
    AppendIf(buffer, text != "", name, Text(text), order, k, choose);
  }

  /** A builder that has visited every name of `order` holds `Appended(order, choose)`. */
  lemma AppendedAll(order: seq<ParamName>, choose: ParamName -> Option<ParamValue>)
    ensures Appended(order[..|order|], choose) == Appended(order, choose)
  {
    assert order[..|order|] == order;
  }

  /** The route reads back exactly the chosen value of every name the builder
      visits, and nothing for the others. */
  lemma {:induction false} GetAppended(order: seq<ParamName>, choose: ParamName -> Option<ParamValue>, n: ParamName)
    ensures Get(Appended(order, choose), n) == if n in order then choose(n) else None
  {
    if order != [] {
      GetAppended(order[1..], choose, n);
      var e := Emitted(order[0], choose(order[0]));
      var rest := Appended(order[1..], choose);
      assert order == [order[0]] + order[1..];
      if e != [] {
        assert (e + rest)[0] == e[0];
        assert (e + rest)[1..] == rest;
      } else {
        assert e + rest == rest;
      }
    }
  }

  /** The entries' names come in the builder's order: they are the visited
      names, less those whose condition failed. */
  lemma {:induction false} AppendedInOrder(order: seq<ParamName>, choose: ParamName -> Option<ParamValue>)
    ensures IsSubsequence(Names(Appended(order, choose)), order)
    ensures forall n :: n in Names(Appended(order, choose)) <==> n in order && choose(n).Some?
  {
    if order != [] {
      AppendedInOrder(order[1..], choose);
      var rest := Appended(order[1..], choose);
      assert order == [order[0]] + order[1..];
      if choose(order[0]).Some? {
        var all := [Param(order[0], choose(order[0]).value)] + rest;
        assert Names(all)[0] == order[0];
        assert Names(all)[1..] == Names(rest);
        assert Names(all) == [order[0]] + Names(rest);
      } else {
        assert Appended(order, choose) == rest;
      }
    }
  }

  /** When no condition holds, nothing is appended. */
  lemma {:induction false} AppendedNothing(order: seq<ParamName>, choose: ParamName -> Option<ParamValue>)
    requires forall n :: choose(n).None?
    ensures Appended(order, choose) == []
  {
    if order != [] {
      AppendedNothing(order[1..], choose);
    }
  }

  /** `parseFloat(value || '0')` for the answer of `get`: a lower bound, 0
      when the parameter is absent or empty. Texts go through `parseFloat`, a
      parameter here; numbers come back as sent. */
  function ReadLower(v: Option<ParamValue>, parseFloat: string -> real): (r: real)
    ensures v.None? || v == Some(Text("")) ==> r == 0.0
    ensures v.Some? && v.value.Number? ==> r == v.value.n
  {
    match v
    case None => 0.0
    case Some(Number(x)) => x
    case Some(Text(t)) => if t == "" then 0.0 else parseFloat(t)
  }

  /** `parseFloat(value || 'Infinity')`: an upper bound, unbounded when the
      parameter is absent or empty. */
  function ReadUpper(v: Option<ParamValue>, parseFloat: string -> real): (r: UpperBound)
    ensures v.None? || v == Some(Text("")) ==> r == Infinite
    ensures v.Some? && v.value.Number? ==> r == Finite(v.value.n)
  {
    match v
    case None => Infinite
    case Some(Number(x)) => Finite(x)
    case Some(Text(t)) => if t == "" then Infinite else Finite(parseFloat(t))
  }

  /** `value === 'true'`. */
  predicate ReadFlag(v: Option<ParamValue>)
  {
    v == Some(Text("true"))
  }

  /** `value?.toLowerCase() || ''` before the lowering: the text, or "" when absent. */
  function ReadSearch(v: Option<ParamValue>): (r: string)
    ensures v.None? ==> r == ""
    ensures v.Some? && v.value.Text? ==> r == v.value.s
  {
    match v
    case Some(Text(t)) => t
    case _ => ""
  }

  /** The entries whose name is in `names`. */
  function NamedIn(names: set<ParamName>): Param -> bool
  {
    (p: Param) => p.name in names
  }

  /** Removing entries under other names does not change what `get` answers
      for a name in `names`. */
  lemma {:induction false} GetKept(ps: seq<Param>, names: set<ParamName>, n: ParamName)
    requires n in names
    ensures Get(Filter(ps, NamedIn(names)), n) == Get(ps, n)
  {
    if ps != [] {
      GetKept(ps[1..], names, n);
      var rest := Filter(ps[1..], NamedIn(names));
      if ps[0].name in names {
        assert Filter(ps, NamedIn(names)) == [ps[0]] + rest;
        assert ([ps[0]] + rest)[1..] == rest;
      } else {
        assert Filter(ps, NamedIn(names)) == rest;
      }
    }
  }

  /** A lower bound is sent only when above 0. */
  function LowerParam(lo: real): Option<ParamValue>
  {
    if lo > 0.0 then Some(Number(lo)) else None
  }

  /** An upper bound is sent only below the slider's `threshold`. */
  function UpperParam(hi: real, threshold: real): Option<ParamValue>
  {
    if hi < threshold then Some(Number(hi)) else None
  }

  /** A flag is sent as 'true' when set. */
  function FlagParam(b: bool): Option<ParamValue>
  {
    if b then Some(Text("true")) else None
  }

  /** A text is sent when non-empty. */
  function TextParam(t: string): Option<ParamValue>
  {
    if t != "" then Some(Text(t)) else None
  }

  /** A lower bound is read back as itself when sent, and as 0 otherwise. */
  lemma LowerRoundTrip(lo: real, parseFloat: string -> real)
    ensures LowerParam(lo).Some? <==> lo > 0.0
    ensures ReadLower(LowerParam(lo), parseFloat) == if lo > 0.0 then lo else 0.0
  {
  }

  /** An upper bound is read back as itself when sent, and as no bound
      otherwise. */
  lemma UpperRoundTrip(hi: real, threshold: real, parseFloat: string -> real)
    ensures UpperParam(hi, threshold).Some? <==> hi < threshold
    ensures ReadUpper(UpperParam(hi, threshold), parseFloat) == if hi < threshold then Finite(hi) else Infinite
  {
  }

  /** A filter text sent as a lower bound is read back through `parseFloat`
      when non-empty, and as 0 otherwise. */
  lemma TextLowerRoundTrip(t: string, parseFloat: string -> real)
    ensures ReadLower(TextParam(t), parseFloat) == if t == "" then 0.0 else parseFloat(t)
  {
  }

  /** A flag is read back as itself. */
  lemma FlagRoundTrip(b: bool)
    ensures FlagParam(b).Some? <==> b
    ensures ReadFlag(FlagParam(b)) == b
  {
  }

  /** A text is read back as itself. */
  lemma TextRoundTrip(t: string)
    ensures TextParam(t).Some? <==> t != ""
    ensures ReadSearch(TextParam(t)) == t
  {
  }
}
