/**
  Environments and their variables (src/stores/environment.ts): named sets of
  variables, one of them active, that `{{name}}` placeholders in request text resolve
  against.
 */
module EnvironmentStore {
  import opened Wrappers
  import opened Strings
  import opened OrderedMaps
  import opened Json
  import Seqs

  /** An environment; `variables` is a record in insertion order, `isGlobal` absent is `false`. */
  datatype Environment = Environment(id: string, name: string, variables: seq<(string, string)>, isGlobal: bool)

  /** The environment created when there is none. */
  const DefaultEnvironment := Environment("default", "Default", [], true)

  /** The store's state: the environment list and the active id (`null` is `None`). */
  datatype EnvState = EnvState(environments: seq<Environment>, activeId: Option<string>)

  /** No two environments share an id. */
  predicate UniqueIds(envs: seq<Environment>) {
    forall i, j :: 0 <= i < j < |envs| ==> envs[i].id != envs[j].id
  }

  /** Every environment's variables form a record: no name twice. */
  predicate RecordsWellFormed(envs: seq<Environment>) {
    forall i :: 0 <= i < |envs| ==> UniqueKeys(envs[i].variables)
  }

  /** `environments.findIndex(e => e.id === id)`, with `None` for `-1`. */
  function IndexOfEnv(envs: seq<Environment>, id: string): (r: Option<nat>)
    ensures r.None? <==> forall j :: 0 <= j < |envs| ==> envs[j].id != id
    ensures r.Some? ==> r.value < |envs| && envs[r.value].id == id
    ensures r.Some? ==> forall j :: 0 <= j < r.value ==> envs[j].id != id
  {
    Seqs.FirstIndexBy(envs, EnvId, id)
  }

  function EnvId(env: Environment): string {
    env.id
  }

  /** `environments.find(env => env.isGlobal)`, as an index. */
  function IndexOfGlobal(envs: seq<Environment>): (r: Option<nat>)
    ensures r.None? <==> forall j :: 0 <= j < |envs| ==> !envs[j].isGlobal
    ensures r.Some? ==> r.value < |envs| && envs[r.value].isGlobal
    ensures r.Some? ==> forall j :: 0 <= j < r.value ==> !envs[j].isGlobal
  {
    if envs == [] then None
    else if envs[0].isGlobal then Some(0)
    else
      match IndexOfGlobal(envs[1..])
      case None => None
      case Some(i) => Some(i + 1)
  }

  /** The index of `activeEnvironment`: none for a missing or empty id, else the first environment with it. */
  function ActiveIndex(st: EnvState): (r: Option<nat>)
    ensures r.Some? ==> r.value < |st.environments| && Some(st.environments[r.value].id) == st.activeId
    ensures st.activeId.Some? && st.activeId.value != "" && IndexOfEnv(st.environments, st.activeId.value).Some? ==> r.Some?
  {
    if st.activeId.None? || st.activeId.value == "" then None
    else IndexOfEnv(st.environments, st.activeId.value)
  }

  /** `activeEnvironment`. */
  function ActiveEnvironment(st: EnvState): Option<Environment> {
    match ActiveIndex(st)
    case Some(i) => Some(st.environments[i])
    case None => None
  }

  /**
    `allVariables`: the first global environment's variables, overlaid with the active
    environment's when that one is not global.
   */
  function AllVariables(st: EnvState): seq<(string, string)> {
    var fromGlobal := match IndexOfGlobal(st.environments)
      case Some(g) => Assign([], st.environments[g].variables)
      case None => [];
    match ActiveEnvironment(st)
    case Some(active) => if !active.isGlobal then Assign(fromGlobal, active.variables) else fromGlobal
    case None => fromGlobal
  }

  /** The variables of the first global environment, if there is one. */
  function GlobalVariable(st: EnvState, name: string): Option<string> {
    match IndexOfGlobal(st.environments)
    case Some(g) => Get(st.environments[g].variables, name)
    case None => None
  }

  /**
    A name resolves to the active environment's value when that environment is not
    global and defines it, and otherwise to the first global environment's value.
   */
  lemma AllVariablesLookup(st: EnvState, name: string)
    requires RecordsWellFormed(st.environments)
    ensures Get(AllVariables(st), name) ==
      var active := ActiveEnvironment(st);
      if active.Some? && !active.value.isGlobal && name in Keys(active.value.variables)
      then Get(active.value.variables, name)
      else GlobalVariable(st, name)
  {
    var fromGlobal := match IndexOfGlobal(st.environments)
      case Some(g) => Assign([], st.environments[g].variables)
      case None => [];
    assert Get(fromGlobal, name) == GlobalVariable(st, name) by {
      match IndexOfGlobal(st.environments)
      case Some(g) => AssignGet([], st.environments[g].variables, name);
      case None =>
    }
    var active := ActiveEnvironment(st);
    if active.Some? && !active.value.isGlobal {
      AssignGet(fromGlobal, active.value.variables, name);
    }
  }

  /** `getVariable`. */
  function GetVariable(st: EnvState, name: string): Option<string> {
    Get(AllVariables(st), name)
  }

  /** The longest run of word characters (`\w`) that `s` starts with. */
  function WordPrefix(s: string): (w: string)
    ensures w <= s
    ensures forall i :: 0 <= i < |w| ==> IsWordChar(w[i])
    ensures |w| < |s| ==> !IsWordChar(s[|w|])
  {
    if s != [] && IsWordChar(s[0]) then [s[0]] + WordPrefix(s[1..]) else []
  }

  /** A word followed by a non-word character: the word is the whole run. */
  lemma {:induction false} WordPrefixOf(w: string, t: string)
    requires forall i :: 0 <= i < |w| ==> IsWordChar(w[i])
    requires t != [] && !IsWordChar(t[0])
    ensures WordPrefix(w + t) == w
  {
    if w != [] {
      assert (w + t)[1..] == w[1..] + t;
      WordPrefixOf(w[1..], t);
    } else {
      assert w + t == t;
    }
  }

  /**
    The name of the `{{name}}` placeholder that `s` starts with, the way the pattern
    `/\{\{(\w+)\}\}/` matches at that position.
   */
  function PlaceholderAt(s: string): (r: Option<string>)
    ensures r.Some? ==> r.value != "" && "{{" + r.value + "}}" <= s
    ensures r.Some? ==> forall i :: 0 <= i < |r.value| ==> IsWordChar(r.value[i])
  {
    if |s| >= 2 && s[0] == '{' && s[1] == '{' then
      var name := WordPrefix(s[2..]);
      if name != "" && "}}" <= s[2 + |name|..] then
        assert s[..2 + |name| + 2] == "{{" + name + "}}";
        Some(name)
      else None
    else None
  }

  /**
    `s.replace(/\{\{(\w+)\}\}/g, …)`: each placeholder is replaced by `lookup`'s value for
    its name, or left as it was when there is none; the scan resumes after the
    placeholder, so replaced text is never scanned again.
   */
  function Substitute(s: string, lookup: string -> Option<string>): string
    decreases |s|
  {
    if s == [] then []
    else
      match PlaceholderAt(s)
      case Some(name) =>
        var replacement := match lookup(name) case Some(v) => v case None => "{{" + name + "}}";
        replacement + Substitute(s[|name| + 4..], lookup)
      case None => [s[0]] + Substitute(s[1..], lookup)
  }

  /** With no name defined, substitution leaves the text as it is. */
  lemma {:induction false} SubstituteUndefined(s: string, lookup: string -> Option<string>)
    requires forall n :: lookup(n).None?
    ensures Substitute(s, lookup) == s
    decreases |s|
  {
    hide PlaceholderAt, WordPrefix;
    if s != [] {
      match PlaceholderAt(s)
      case Some(name) =>
        var rest := s[|name| + 4..];
        assert lookup(name).None?;
        assert Substitute(s, lookup) == "{{" + name + "}}" + Substitute(rest, lookup);
        SubstituteUndefined(rest, lookup);
        assert s == s[..|name| + 4] + rest;
      case None =>
        assert Substitute(s, lookup) == [s[0]] + Substitute(s[1..], lookup);
        SubstituteUndefined(s[1..], lookup);
        assert s == [s[0]] + s[1..];
    }
  }

  /**
    A leading placeholder is replaced by its value and scanning goes on after it: the
    value itself is never scanned for placeholders.
   */
  lemma SubstitutePlaceholder(name: string, rest: string, lookup: string -> Option<string>)
    requires name != "" && forall i :: 0 <= i < |name| ==> IsWordChar(name[i])
    ensures Substitute("{{" + name + "}}" + rest, lookup) ==
      (match lookup(name) case Some(v) => v case None => "{{" + name + "}}") + Substitute(rest, lookup)
  {
    var s := "{{" + name + "}}" + rest;
    assert s[2..] == name + ("}}" + rest);
    WordPrefixOf(name, "}}" + rest);
    assert s[2 + |name|..] == "}}" + rest;
    assert PlaceholderAt(s) == Some(name);
    assert s[|name| + 4..] == rest;
  }

  /** The variables as a lookup: an own property or nothing. */
  function Lookup(vars: seq<(string, string)>): string -> Option<string> {
    (name: string) => Get(vars, name)
  }

  /**
    `resolveVariable`, reading only the variables themselves (see the Findings for the
    inherited names the source also finds).
   */
  function ResolveVariable(st: EnvState, value: string): string {
    Substitute(value, Lookup(AllVariables(st)))
  }

  /** With no variables at all, resolving changes nothing. */
  lemma ResolveWithoutVariables(st: EnvState, value: string)
    requires AllVariables(st) == []
    ensures ResolveVariable(st, value) == value
  {
    SubstituteUndefined(value, Lookup([]));
  }

  /**
    A leading `{{name}}` becomes the value of the variable `name` when there is one and is
    left as it is otherwise; the rest of the text is resolved after it.
   */
  lemma ResolveVariablePlaceholder(st: EnvState, name: string, rest: string)
    requires name != "" && forall i :: 0 <= i < |name| ==> IsWordChar(name[i])
    ensures ResolveVariable(st, "{{" + name + "}}" + rest) ==
      (match Get(AllVariables(st), name) case Some(v) => v case None => "{{" + name + "}}") + ResolveVariable(st, rest)
  {
    SubstitutePlaceholder(name, rest, Lookup(AllVariables(st)));
  }

  /** The text that `String(v)` gives for a property every plain object inherits, by name. */
  function InheritedText(name: string): Option<string> {
    if name == "constructor" then Some("function Object() { [native code] }")
    else if name == "__proto__" then Some("[object Object]")
    else if name in ["hasOwnProperty", "isPrototypeOf", "propertyIsEnumerable", "toString", "valueOf",
                     "toLocaleString", "__defineGetter__", "__defineSetter__", "__lookupGetter__", "__lookupSetter__"]
    then Some("function " + name + "() { [native code] }")
    else None
  }

  /** `vars[varName] !== undefined` on a plain object: its own property, else an inherited one. */
  function LookupAsWritten(vars: seq<(string, string)>): string -> Option<string> {
    (name: string) => if name in Keys(vars) then Get(vars, name) else InheritedText(name)
  }

  /** `resolveVariable` as written: inherited names count as defined. */
  function ResolveVariableAsWritten(st: EnvState, value: string): string {
    Substitute(value, LookupAsWritten(AllVariables(st)))
  }

  /**
    With no variables defined, a placeholder naming a property every object inherits is
    left alone by the intended lookup but replaced by the source's lookup with the text
    of that inherited property.
   */
  lemma InheritedNameReplacedAsWritten(st: EnvState, name: string)
    requires AllVariables(st) == []
    requires InheritedText(name).Some?
    requires name != "" && forall i :: 0 <= i < |name| ==> IsWordChar(name[i])
    ensures ResolveVariable(st, "{{" + name + "}}") == "{{" + name + "}}"
    ensures ResolveVariableAsWritten(st, "{{" + name + "}}") == InheritedText(name).value
  {
    ResolveWithoutVariables(st, "{{" + name + "}}");
    assert "{{" + name + "}}" + "" == "{{" + name + "}}";
    SubstitutePlaceholder(name, "", LookupAsWritten([]));
  }

  /** `{{constructor}}` is one such placeholder: it becomes the source text of `Object`. */
  lemma ConstructorReplacedAsWritten(st: EnvState)
    requires AllVariables(st) == []
    ensures ResolveVariableAsWritten(st, "{{" + "constructor" + "}}") == "function Object() { [native code] }"
  {
    var name := "constructor";
    assert InheritedText(name) == Some("function Object() { [native code] }");
    assert IsWordChar(name[0]) && IsWordChar(name[1]) && IsWordChar(name[2]) && IsWordChar(name[3]);
    assert IsWordChar(name[4]) && IsWordChar(name[5]) && IsWordChar(name[6]) && IsWordChar(name[7]);
    assert IsWordChar(name[8]) && IsWordChar(name[9]) && IsWordChar(name[10]);
    InheritedNameReplacedAsWritten(st, name);
  }

  /** `resolveVariables`: strings resolved, arrays and objects rebuilt around resolved members. */
  function ResolveValues(v: Value, st: EnvState): Value
    decreases v
  {
    match v
    case Str(s) => Str(ResolveVariable(st, s))
    case Arr(items) => Arr(seq(|items|, i requires 0 <= i < |items| => ResolveValues(items[i], st)))
    case Obj(fields) => Obj(seq(|fields|, i requires 0 <= i < |fields| => (fields[i].0, ResolveValues(fields[i].1, st))))
    case _ => v
  }

  /** Two values with the same structure: the same kinds, lengths and keys, differing only in strings. */
  predicate SameShape(a: Value, b: Value)
    decreases a
  {
    match a
    case Str(_) => b.Str?
    case Arr(items) =>
      b.Arr? && |b.items| == |items| && forall i :: 0 <= i < |items| ==> SameShape(items[i], b.items[i])
    case Obj(fields) =>
      b.Obj? && |b.fields| == |fields|
      && forall i :: 0 <= i < |fields| ==> fields[i].0 == b.fields[i].0 && SameShape(fields[i].1, b.fields[i].1)
    case _ => a == b
  }

  /** Resolving keeps the structure and every key; only strings change. */
  lemma {:induction false} ResolveValuesShape(v: Value, st: EnvState)
    ensures SameShape(v, ResolveValues(v, st))
    decreases v
  {
    match v
    case Arr(items) =>
      forall i | 0 <= i < |items| ensures SameShape(items[i], ResolveValues(v, st).items[i]) {
        ResolveValuesShape(items[i], st);
      }
    case Obj(fields) =>
      forall i | 0 <= i < |fields|
        ensures fields[i].0 == ResolveValues(v, st).fields[i].0
        ensures SameShape(fields[i].1, ResolveValues(v, st).fields[i].1)
      {
        ResolveValuesShape(fields[i].1, st);
      }
    case _ =>
  }

  /** With no variables, resolving returns the value unchanged. */
  lemma {:induction false} ResolveValuesWithoutVariables(v: Value, st: EnvState)
    requires AllVariables(st) == []
    ensures ResolveValues(v, st) == v
    decreases v
  {
    match v
    case Str(s) => ResolveWithoutVariables(st, s);
    case Arr(items) =>
      forall i | 0 <= i < |items| ensures ResolveValues(items[i], st) == items[i] {
        ResolveValuesWithoutVariables(items[i], st);
      }
      assert ResolveValues(v, st).items == items;
    case Obj(fields) =>
      forall i | 0 <= i < |fields| ensures ResolveValues(fields[i].1, st) == fields[i].1 {
        ResolveValuesWithoutVariables(fields[i].1, st);
      }
      assert ResolveValues(v, st).fields == fields;
    case _ =>
  }

  /** `setEnvironment`: replaces the environment with the same id in place, or appends it. */
  function Upserted(envs: seq<Environment>, env: Environment): seq<Environment> {
    match IndexOfEnv(envs, env.id)
    case Some(i) => envs[i := env]
    case None => envs + [env]
  }

  /**
    The list grows by one exactly when the id was new, the environment is then found
    under its id, and every other id finds what it found before.
   */
  lemma UpsertedMeaning(envs: seq<Environment>, env: Environment, id: string)
    ensures |Upserted(envs, env)| == if IndexOfEnv(envs, env.id).Some? then |envs| else |envs| + 1
    ensures IndexOfEnv(Upserted(envs, env), env.id).Some?
    ensures Upserted(envs, env)[IndexOfEnv(Upserted(envs, env), env.id).value] == env
    ensures id != env.id ==> IndexOfEnv(Upserted(envs, env), id) == IndexOfEnv(envs, id)
    ensures UniqueIds(envs) ==> UniqueIds(Upserted(envs, env))
  {
    var r := Upserted(envs, env);
    match IndexOfEnv(envs, env.id)
    case Some(i) =>
      assert r[i] == env;
      var j := IndexOfEnv(r, env.id).value;
      assert j <= i;
      if id != env.id {
        IndexOfEnvSame(envs, r, id);
      }
    case None =>
      assert r[|envs|] == env;
      if id != env.id {
        IndexOfEnvSame(envs, r, id);
      }
  }

  /** Lists that agree on which positions hold `id` find it at the same index. */
  lemma {:induction false} IndexOfEnvSame(a: seq<Environment>, b: seq<Environment>, id: string)
    requires |a| <= |b|
    requires forall j :: 0 <= j < |a| ==> (a[j].id == id <==> b[j].id == id)
    requires forall j :: |a| <= j < |b| ==> b[j].id != id
    ensures IndexOfEnv(a, id) == IndexOfEnv(b, id)
  {
    if a != [] {
      IndexOfEnvSame(a[1..], b[1..], id);
    }
  }

  /** `removeEnvironment`: whether it removed, and the new state. */
  function Removed(st: EnvState, id: string): (bool, EnvState) {
    match IndexOfEnv(st.environments, id)
    case None => (false, st)
    case Some(i) =>
      if |st.environments| == 1 then (false, st)
      else
        var envs := st.environments[..i] + st.environments[i + 1..];
        var active := if st.activeId == Some(id) then (if |envs| > 0 then Some(envs[0].id) else None) else st.activeId;
        (true, EnvState(envs, active))
  }

  /**
    Removal is refused, changing nothing, for an absent id or the only environment.
    Otherwise the first environment with the id is gone, the others keep their order,
    and an active removed environment hands over to the first remaining one.
   */
  lemma RemovedMeaning(st: EnvState, id: string)
    ensures !Removed(st, id).0 <==> IndexOfEnv(st.environments, id).None? || |st.environments| == 1
    ensures !Removed(st, id).0 ==> Removed(st, id).1 == st
    ensures Removed(st, id).0 ==>
      var i := IndexOfEnv(st.environments, id).value;
      var after := Removed(st, id).1;
      && |after.environments| == |st.environments| - 1
      && after.environments[..i] == st.environments[..i]
      && after.environments[i..] == st.environments[i + 1..]
      && (st.activeId == Some(id) ==> ActiveEnvironment(after).Some? || after.environments[0].id == "")
      && (st.activeId == Some(id) ==> after.activeId == Some(after.environments[0].id))
      && (st.activeId != Some(id) ==> after.activeId == st.activeId)
    ensures Removed(st, id).0 && UniqueIds(st.environments) ==>
      UniqueIds(Removed(st, id).1.environments) && IndexOfEnv(Removed(st, id).1.environments, id).None?
  {
    match IndexOfEnv(st.environments, id)
    case None =>
    case Some(i) =>
      if |st.environments| > 1 {
        var envs := st.environments;
        var after := Removed(st, id).1;
        assert after.environments == envs[..i] + envs[i + 1..];
        if st.activeId == Some(id) && after.environments[0].id != "" {
          assert IndexOfEnv(after.environments, after.environments[0].id) == Some(0);
        }
        SpliceUnique(envs, i);
      }
  }

  /** Taking out the environment at `i` keeps ids unique and leaves none with its id. */
  lemma SpliceUnique(envs: seq<Environment>, i: nat)
    requires i < |envs|
    ensures UniqueIds(envs) ==> UniqueIds(envs[..i] + envs[i + 1..])
    ensures UniqueIds(envs) ==> IndexOfEnv(envs[..i] + envs[i + 1..], envs[i].id).None?
  {
    var r := envs[..i] + envs[i + 1..];
    assert forall j :: 0 <= j < |r| ==> r[j] == envs[if j < i then j else j + 1];
  }

  /** `setActiveEnvironment`: only `null` or the id of an existing environment is accepted. */
  function ActiveSet(st: EnvState, id: Option<string>): EnvState {
    if id.None? || IndexOfEnv(st.environments, id.value).Some? then st.(activeId := id) else st
  }

  /** The active id afterwards is the requested one when acceptable and the old one otherwise. */
  lemma ActiveSetMeaning(st: EnvState, id: Option<string>)
    ensures ActiveSet(st, id).environments == st.environments
    ensures ActiveSet(st, id).activeId == id || ActiveSet(st, id) == st
    ensures ActiveSet(st, id).activeId == id <==>
      id.None? || IndexOfEnv(st.environments, id.value).Some? || st.activeId == id
    ensures id.Some? && id.value != "" && IndexOfEnv(st.environments, id.value).Some? ==>
      ActiveEnvironment(ActiveSet(st, id)) == Some(st.environments[IndexOfEnv(st.environments, id.value).value])
  {
  }

  /**
    The first step of `setVariable` as written: with no active environment it appends a
    fresh `default` environment and makes `default` active, whether or not an
    environment with that id exists.
   */
  function WithActiveAsWritten(st: EnvState): (r: EnvState)
    ensures ActiveIndex(r).Some?
  {
    if ActiveEnvironment(st).None? then
      var envs := st.environments + [DefaultEnvironment];
      assert envs[|envs| - 1].id == "default";
      EnvState(envs, Some("default"))
    else st
  }

  /** The first step of `setVariable` made safe: a `default` environment is appended only when there is none. */
  function WithActive(st: EnvState): (r: EnvState)
    ensures ActiveIndex(r).Some?
  {
    if ActiveEnvironment(st).None? then
      if IndexOfEnv(st.environments, "default").Some? then EnvState(st.environments, Some("default"))
      else
        var envs := st.environments + [DefaultEnvironment];
        assert envs[|envs| - 1].id == "default";
        EnvState(envs, Some("default"))
    else st
  }

  /** `env.variables[name] = value` on the active environment. */
  function WriteVariable(st: EnvState, name: string, value: string): EnvState
    requires ActiveIndex(st).Some?
  {
    var i := ActiveIndex(st).value;
    var env := st.environments[i];
    st.(environments := st.environments[i := env.(variables := Put(env.variables, name, value))])
  }

  /** `setVariable` as written. */
  function VariableSetAsWritten(st: EnvState, name: string, value: string): EnvState {
    WriteVariable(WithActiveAsWritten(st), name, value)
  }

  /** `setVariable`, with the `default` environment appended only when missing. */
  function VariableSet(st: EnvState, name: string, value: string): EnvState {
    WriteVariable(WithActive(st), name, value)
  }

  /**
    With no active environment but one with id `default` already present, the source
    appends a second environment with that id.
   */
  lemma DuplicateDefaultAsWritten(name: string, value: string)
    ensures UniqueIds([DefaultEnvironment])
    ensures !UniqueIds(VariableSetAsWritten(EnvState([DefaultEnvironment], None), name, value).environments)
  {
    var after := VariableSetAsWritten(EnvState([DefaultEnvironment], None), name, value);
    assert after.environments[0].id == "default" && after.environments[1].id == "default";
  }

  /**
    `setVariable` keeps ids unique and variable records well formed, and afterwards the
    active environment holds the value under the name.
   */
  lemma VariableSetMeaning(st: EnvState, name: string, value: string)
    requires UniqueIds(st.environments) && RecordsWellFormed(st.environments)
    ensures var after := VariableSet(st, name, value);
      && UniqueIds(after.environments) && RecordsWellFormed(after.environments)
      && ActiveEnvironment(after).Some?
      && Get(ActiveEnvironment(after).value.variables, name) == Some(value)
  {
    WithActiveWellFormed(st);
    hide WithActive, WriteVariable;
    WriteVariableMeaning(WithActive(st), name, value);
  }

  /** Making an environment active keeps ids unique and records well formed. */
  lemma WithActiveWellFormed(st: EnvState)
    requires UniqueIds(st.environments) && RecordsWellFormed(st.environments)
    ensures UniqueIds(WithActive(st).environments) && RecordsWellFormed(WithActive(st).environments)
  {
  }

  /** Writing to the active environment keeps it active and well formed, and it then holds the value. */
  lemma WriteVariableMeaning(mid: EnvState, name: string, value: string)
    requires ActiveIndex(mid).Some? && UniqueIds(mid.environments) && RecordsWellFormed(mid.environments)
    ensures var after := WriteVariable(mid, name, value);
      && UniqueIds(after.environments) && RecordsWellFormed(after.environments)
      && ActiveEnvironment(after).Some?
      && Get(ActiveEnvironment(after).value.variables, name) == Some(value)
  {
    var i := ActiveIndex(mid).value;
    var after := WriteVariable(mid, name, value);
    var env := mid.environments[i];
    PutGet(env.variables, name, value, name);
    PutUnique(env.variables, name, value);
    assert ActiveIndex(after) == Some(i) by {
      IndexOfEnvSame(mid.environments, after.environments, mid.activeId.value);
    }
  }

  /**
    The value just set is what `getVariable` returns when the active environment is not
    global or is the first global one.
   */
  lemma VariableSetVisible(st: EnvState, name: string, value: string)
    requires UniqueIds(st.environments) && RecordsWellFormed(st.environments)
    requires var after := VariableSet(st, name, value); var i := ActiveIndex(after);
      i.Some? && (!after.environments[i.value].isGlobal || IndexOfGlobal(after.environments) == i)
    ensures GetVariable(VariableSet(st, name, value), name) == Some(value)
  {
    VariableSetMeaning(st, name, value);
    var after := VariableSet(st, name, value);
    AllVariablesLookup(after, name);
  }

  /** `removeVariable`: deletes the name from the active environment, if there is one. */
  function VariableRemoved(st: EnvState, name: string): EnvState {
    match ActiveIndex(st)
    case Some(i) =>
      var env := st.environments[i];
      st.(environments := st.environments[i := env.(variables := Remove(env.variables, name))])
    case None => st
  }

  /** Afterwards the active environment lacks the name, and every other environment is untouched. */
  lemma VariableRemovedMeaning(st: EnvState, name: string)
    ensures var after := VariableRemoved(st, name);
      && |after.environments| == |st.environments|
      && after.activeId == st.activeId
      && (forall j :: 0 <= j < |st.environments| && Some(j) != ActiveIndex(st) ==> after.environments[j] == st.environments[j])
      && (ActiveIndex(st).Some? ==> name !in Keys(after.environments[ActiveIndex(st).value].variables))
  {
  }

  /** What `loadEnvironments` finds in storage. */
  datatype StoredEnvironments =
    | NoStorage          // `localStorage` is not available: nothing happens
    | NothingSaved       // no entry, or an empty one
    | Unreadable         // the entry is not JSON
    | NotAnArray         // the entry is JSON but not an array
    | SavedList(envs: seq<Environment>)

  /** The list read from storage; anything but a saved array reads as empty. */
  function SavedEnvironments(stored: StoredEnvironments): seq<Environment> {
    match stored
    case SavedList(envs) => envs
    case _ => []
  }

  /** The state after `loadEnvironments`, given the stored list and the stored active id. */
  function Loaded(stored: StoredEnvironments, savedActive: Option<string>): EnvState {
    match stored
    case NoStorage => EnvState([], None)
    case Unreadable => EnvState([DefaultEnvironment], Some("default"))
    case _ =>
      var envs := SavedEnvironments(stored);
      var present := if envs == [] then [DefaultEnvironment] else envs;
      var active := if savedActive.Some? && savedActive.value != "" then savedActive else Some(present[0].id);
      EnvState(present, active)
  }

  /**
    Wherever storage is available, loading leaves at least one environment and an
    active id; with no usable list, that environment is the global `Default` one.
   */
  lemma LoadedMeaning(stored: StoredEnvironments, savedActive: Option<string>)
    ensures stored != NoStorage ==> |Loaded(stored, savedActive).environments| >= 1 && Loaded(stored, savedActive).activeId.Some?
    ensures stored.SavedList? && stored.envs != [] ==> Loaded(stored, savedActive).environments == stored.envs
    ensures stored != NoStorage && (!stored.SavedList? || stored.envs == []) ==>
      Loaded(stored, savedActive).environments == [DefaultEnvironment]
    ensures stored == NoStorage ==> Loaded(stored, savedActive) == EnvState([], None)
  {
  }

  /** The store: the environment list and the active id, updated in place. */
  class EnvironmentStoreState {
    var environments: seq<Environment>
    var activeEnvironmentId: Option<string>

    function State(): EnvState
      reads this
    {
      EnvState(environments, activeEnvironmentId)
    }

    /** `loadEnvironments`. */
    constructor (stored: StoredEnvironments, savedActive: Option<string>)
      ensures State() == Loaded(stored, savedActive)
    {
      match stored
      case NoStorage =>
        environments, activeEnvironmentId := [], None;
      case Unreadable =>
        environments, activeEnvironmentId := [DefaultEnvironment], Some("default");
      case _ =>
        var envs := SavedEnvironments(stored);
        if |envs| == 0 {
          envs := [DefaultEnvironment];
        }
        var active := None;
        if savedActive.Some? && savedActive.value != "" {
          active := savedActive;
        } else if |envs| > 0 {
          active := Some(envs[0].id);
        }
        environments, activeEnvironmentId := envs, active;
    }

    /** `setEnvironment`. */
    method SetEnvironment(env: Environment)
      modifies this
      ensures State() == EnvState(Upserted(old(environments), env), old(activeEnvironmentId))
    {
      var index := IndexOfEnv(environments, env.id);
      if index.Some? {
        environments := environments[index.value := env];
      } else {
        environments := environments + [env];
      }
    }

    /** `removeEnvironment`. */
    method RemoveEnvironment(id: string) returns (removed: bool)
      modifies this
      ensures (removed, State()) == Removed(old(State()), id)
    {
      var index := IndexOfEnv(environments, id);
      if index.None? {
        return false;
      }
      if |environments| == 1 {
        return false;
      }
      environments := environments[..index.value] + environments[index.value + 1..];
      if activeEnvironmentId == Some(id) {
        activeEnvironmentId := if |environments| > 0 then Some(environments[0].id) else None;
      }
      return true;
    }

    /** `setActiveEnvironment`. */
    method SetActiveEnvironment(id: Option<string>)
      modifies this
      ensures State() == ActiveSet(old(State()), id)
    {
      if id.None? || IndexOfEnv(environments, id.value).Some? {
        activeEnvironmentId := id;
      }
    }

    /** `setVariable`, appending the `default` environment only when it is missing. */
    method SetVariable(name: string, value: string)
      modifies this
      ensures State() == VariableSet(old(State()), name, value)
    {
      if ActiveEnvironment(State()).None? {
        if IndexOfEnv(environments, "default").None? {
          environments := environments + [DefaultEnvironment];
          assert environments[|environments| - 1].id == "default";
        }
        activeEnvironmentId := Some("default");
        assert IndexOfEnv(environments, "default").Some?;
      }
      var i := ActiveIndex(State()).value;
      var env := environments[i];
      environments := environments[i := env.(variables := Put(env.variables, name, value))];
    }

    /** `removeVariable`. */
    method RemoveVariable(name: string)
      modifies this
      ensures State() == VariableRemoved(old(State()), name)
    {
      var index := ActiveIndex(State());
      if index.Some? {
        var env := environments[index.value];
        environments := environments[index.value := env.(variables := Remove(env.variables, name))];
      }
    }
  }
}
