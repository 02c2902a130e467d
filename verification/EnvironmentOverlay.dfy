/** Applying the operations of an environment block, with a template view of the environment that is
    rebuilt only when it is needed. */
module EnvironmentOverlay {
  import opened Collections
  import opened PathMatch

  type Env = map<string, string>

  datatype Declaration = Expression(source: string) | Text(template: string) | Unspecified
  datatype Removal = ByExpression(source: string) | ByPatterns(patterns: seq<string>)
  datatype Operation = Set(entries: map<string, Declaration>) | Unset(removal: Removal)

  datatype Evaluated = Nothing | AString(text: string) | Strings(texts: seq<string>) | SomethingElse | EvaluationError

  /** Expression and template evaluation over data whose `env` is the given view. */
  datatype Evaluator = Evaluator(eval: (string, Env) -> Evaluated, render: (string, Env) -> Option<string>)

  predicate Contains(s: string, part: string)
    decreases |s|
  {
    part <= s || (s != "" && Contains(s[1..], part))
  }

  predicate IsTemplate(text: string) {
    Contains(text, "{{")
  }

  /** Text without template actions renders to itself, whatever the data. */
  function Render(ev: Evaluator, text: string, view: Env): Option<string> {
    if IsTemplate(text) then ev.render(text, view) else Some(text)
  }

  // ---------------------------------------------------------------------------------------
  // The meaning of an operation, with the view always that of the environment before it

  /** What an entry of a `set` does to its variable; `deferring` is validation, where values may not be
      known yet. */
  datatype Change = Assign(text: string) | Remove | Defer | Abort

  function EntryChange(ev: Evaluator, d: Declaration, view: Env, deferring: bool): Change {
    match d
    case Expression(source) =>
      (match ev.eval(source, view)
       case EvaluationError => if deferring then Defer else Abort
       case Nothing => Remove
       case AString(text) => Assign(text)
       case _ => Abort)
    case Text(template) =>
      var text := Render(ev, template, view);
      if text.None? || (deferring && Contains(text.value, "<no value>")) then if deferring then Defer else Abort
      else Assign(text.value)
    case Unspecified => Remove
  }

  /** The named entries all at once: none of them sees another's change. */
  function AfterSet(ev: Evaluator, entries: map<string, Declaration>, names: set<string>, before: Env,
                    deferring: bool): Env
    requires names <= entries.Keys
  {
    map name | name in before.Keys + names
               && (name in names ==> !EntryChange(ev, entries[name], before, deferring).Remove?) ::
      if name !in names then before[name]
      else if EntryChange(ev, entries[name], before, deferring).Assign? then
        EntryChange(ev, entries[name], before, deferring).text
      else ""
  }

  predicate AllKnown(ev: Evaluator, entries: map<string, Declaration>, names: set<string>, view: Env, deferring: bool)
    requires names <= entries.Keys
  {
    forall name :: name in names ==> !EntryChange(ev, entries[name], view, deferring).Defer?
  }

  predicate Aborts(ev: Evaluator, entries: map<string, Declaration>, view: Env, deferring: bool) {
    exists name :: name in entries && EntryChange(ev, entries[name], view, deferring) == Abort
  }

  /** The patterns of an `unset`; absent when it fails. */
  datatype Resolution = Resolution(patterns: Option<seq<string>>, resolved: bool)

  function Rendered(ev: Evaluator, patterns: seq<string>, view: Env, deferring: bool): Resolution {
    if patterns == [] then Resolution(Some([]), true)
    else
      var front := Rendered(ev, patterns[..|patterns| - 1], view, deferring);
      var last := Render(ev, patterns[|patterns| - 1], view);
      if front.patterns.None? then front
      else if last.Some? then Resolution(Some(front.patterns.value + [last.value]), front.resolved)
      else if deferring then front.(resolved := false)
      else Resolution(None, false)
  }

  function Resolve(ev: Evaluator, removal: Removal, view: Env, deferring: bool): Resolution {
    match removal
    case ByExpression(source) =>
      (match ev.eval(source, view)
       case EvaluationError => if deferring then Resolution(Some([]), false) else Resolution(None, false)
       case Strings(texts) => Resolution(Some(texts), true)
       case _ => Resolution(None, true))
    case ByPatterns(patterns) => Rendered(ev, patterns, view, deferring)
  }

  predicate ValidPattern(pattern: string) {
    pattern != "" && WellFormed(pattern)
  }

  /** The environment without the names any of the patterns matches. */
  function Without(env: Env, patterns: seq<string>): Env {
    if patterns == [] then env
    else WithoutOne(Without(env, patterns[..|patterns| - 1]), patterns[|patterns| - 1])
  }

  function WithoutOne(env: Env, pattern: string): Env {
    map name | name in env && !(ValidPattern(pattern) && Matches(pattern, name)) :: env[name]
  }

  predicate AllValid(patterns: seq<string>) {
    forall k :: 0 <= k < |patterns| ==> ValidPattern(patterns[k])
  }

  datatype Outcome = Applied(env: Env, resolved: bool) | Failed(operation: nat)

  /** One operation, numbered `index`, on an environment that is also the view. */
  function Operated(ev: Evaluator, operation: Operation, index: nat, env: Env, resolved: bool,
                    deferring: bool): Outcome {
    match operation
    case Set(entries) =>
      if Aborts(ev, entries, env, deferring) then Failed(index)
      else Applied(AfterSet(ev, entries, entries.Keys, env, deferring),
                   resolved && AllKnown(ev, entries, entries.Keys, env, deferring))
    case Unset(removal) =>
      var res := Resolve(ev, removal, env, deferring);
      if res.patterns.None? || (!(deferring && !res.resolved) && !AllValid(res.patterns.value)) then Failed(index)
      else Applied(Without(env, res.patterns.value), resolved && res.resolved)
  }

  /** The operations one after another. */
  function Overlaid(ev: Evaluator, operations: seq<Operation>, base: Env, deferring: bool): Outcome {
    if operations == [] then Applied(base, true)
    else
      var last := |operations| - 1;
      var front := Overlaid(ev, operations[..last], base, deferring);
      if front.Failed? then front else Operated(ev, operations[last], last, front.env, front.resolved, deferring)
  }

  lemma {:induction false} FailureStays(ev: Evaluator, operations: seq<Operation>, n: nat, base: Env, deferring: bool)
    requires n <= |operations| && Overlaid(ev, operations[..n], base, deferring).Failed?
    ensures Overlaid(ev, operations, base, deferring) == Overlaid(ev, operations[..n], base, deferring)
    decreases |operations|
  {
    if n < |operations| {
      var front := operations[..|operations| - 1];
      assert front[..n] == operations[..n];
      FailureStays(ev, front, n, base, deferring);
    } else {
      assert operations[..n] == operations;
    }
  }

  // ---------------------------------------------------------------------------------------
  // The loop, with a view that may be stale

  method ChangeOf(ev: Evaluator, d: Declaration, view: Env, deferring: bool) returns (change: Change)
    ensures change == EntryChange(ev, d, view, deferring)
  {
    if d.Unspecified? {
      return Remove;
    }
    var value: Evaluated;
    if d.Expression? {
      value := ev.eval(d.source, view);
    } else {
      var text := Render(ev, d.template, view);
      var failed := text.None? || (deferring && Contains(text.value, "<no value>"));
      value := if failed then EvaluationError else AString(text.value);
    }
    match value
    case EvaluationError => return if deferring then Defer else Abort;
    case Nothing => return Remove;
    case AString(text) => return Assign(text);
    case _ => return Abort;
  }

  /** The entries of a `set`, taken in any order against one view of the environment before them. */
  method ApplySet(ev: Evaluator, entries: map<string, Declaration>, before: Env, deferring: bool)
    returns (failed: bool, env: Env, known: bool)
    ensures failed <==> Aborts(ev, entries, before, deferring)
    ensures !failed ==> env == AfterSet(ev, entries, entries.Keys, before, deferring)
    ensures !failed ==> known == AllKnown(ev, entries, entries.Keys, before, deferring)
  {
    env, known := before, true;
    var done: set<string> := {};
    assert env == AfterSet(ev, entries, {}, before, deferring);
    while done != entries.Keys
      invariant done <= entries.Keys
      invariant forall name :: name in done ==> EntryChange(ev, entries[name], before, deferring) != Abort
      invariant env == AfterSet(ev, entries, done, before, deferring)
      invariant known == AllKnown(ev, entries, done, before, deferring)
      decreases entries.Keys - done
    {
      assert entries.Keys == done + (entries.Keys - done);
      var name :| name in entries.Keys - done;
      var change := ChangeOf(ev, entries[name], before, deferring);
      if change == Abort {
        return true, env, known;
      }
      OneMore(ev, entries, done, name, before, deferring);
      match change {
        case Defer => env, known := env[name := ""], false;
        case Remove => env := env - {name};
        case Assign(text) => env := env[name := text];
        case Abort =>
      }
      done := done + {name};
    }
    failed := false;
  }

  lemma OneMore(ev: Evaluator, entries: map<string, Declaration>, done: set<string>, name: string, before: Env,
                deferring: bool)
    requires done <= entries.Keys && name in entries && name !in done
    requires EntryChange(ev, entries[name], before, deferring) != Abort
    ensures var change := EntryChange(ev, entries[name], before, deferring);
      AfterSet(ev, entries, done + {name}, before, deferring) ==
        var env := AfterSet(ev, entries, done, before, deferring);
        if change.Remove? then env - {name} else env[name := if change.Assign? then change.text else ""]
    ensures AllKnown(ev, entries, done + {name}, before, deferring) <==>
      AllKnown(ev, entries, done, before, deferring) && !EntryChange(ev, entries[name], before, deferring).Defer?
  {
  }

  method ResolveUnset(ev: Evaluator, removal: Removal, view: Env, deferring: bool) returns (r: Resolution)
    ensures r == Resolve(ev, removal, view, deferring)
  {
    if removal.ByExpression? {
      var value := ev.eval(removal.source, view);
      match value
      case EvaluationError => return if deferring then Resolution(Some([]), false) else Resolution(None, false);
      case Strings(texts) => return Resolution(Some(texts), true);
      case _ => return Resolution(None, true);
    }
    var patterns: seq<string> := [];
    var resolved := true;
    for k := 0 to |removal.patterns|
      invariant Rendered(ev, removal.patterns[..k], view, deferring) == Resolution(Some(patterns), resolved)
    {
      assert removal.patterns[..k + 1][..k] == removal.patterns[..k];
      var text := Render(ev, removal.patterns[k], view);
      if text.None? {
        if !deferring {
          RenderingFails(ev, removal.patterns, k + 1, view);
          return Resolution(None, false);
        }
        resolved := false;
      } else {
        patterns := patterns + [text.value];
      }
    }
    assert removal.patterns[..|removal.patterns|] == removal.patterns;
    return Resolution(Some(patterns), resolved);
  }

  lemma {:induction false} RenderingFails(ev: Evaluator, patterns: seq<string>, n: nat, view: Env)
    requires n <= |patterns| && Rendered(ev, patterns[..n], view, false) == Resolution(None, false)
    ensures Rendered(ev, patterns, view, false) == Resolution(None, false)
    decreases |patterns|
  {
    if n == |patterns| {
      assert patterns[..n] == patterns;
    } else {
      var front := patterns[..|patterns| - 1];
      assert front[..n] == patterns[..n];
      RenderingFails(ev, front, n, view);
    }
  }

  /** A removal that contains no expression and no template does not look at the view. */
  predicate ReadsView(removal: Removal) {
    removal.ByExpression? || exists k :: 0 <= k < |removal.patterns| && IsTemplate(removal.patterns[k])
  }

  lemma {:induction false} ViewUnread(ev: Evaluator, patterns: seq<string>, a: Env, b: Env, deferring: bool)
    requires forall k :: 0 <= k < |patterns| ==> !IsTemplate(patterns[k])
    ensures Rendered(ev, patterns, a, deferring) == Rendered(ev, patterns, b, deferring)
  {
    if patterns != [] {
      ViewUnread(ev, patterns[..|patterns| - 1], a, b, deferring);
    }
  }

  /** Removes what one valid pattern matches; one without special characters is looked up directly. */
  method RemoveMatching(env: Env, pattern: string) returns (after: Env, changed: bool)
    requires ValidPattern(pattern)
    ensures after == WithoutOne(env, pattern)
    ensures !changed ==> after == env
  {
    after, changed := env, false;
    if !HasMeta(pattern) {
      forall name | name in env
        ensures Matches(pattern, name) <==> name == pattern
      {
        LiteralMatches(pattern, name);
      }
      if pattern in env {
        after, changed := env - {pattern}, true;
      }
      return;
    }
    var names := env.Keys;
    while names != {}
      invariant names <= env.Keys
      invariant after == map name | name in env && (name !in names ==> !Matches(pattern, name)) :: env[name]
      invariant !changed ==> after == env
      decreases names
    {
      var name :| name in names;
      names := names - {name};
      if Matches(pattern, name) {
        after, changed := after - {name}, true;
      }
    }
  }

  method ApplyUnset(env: Env, patterns: seq<string>, skipInvalid: bool) returns (failed: bool, after: Env,
      changed: bool)
    ensures failed <==> !skipInvalid && !AllValid(patterns)
    ensures !failed ==> after == Without(env, patterns)
    ensures !failed && !changed ==> after == env
  {
    after, changed := env, false;
    for k := 0 to |patterns|
      invariant after == Without(env, patterns[..k])
      invariant !changed ==> after == env
      invariant !skipInvalid ==> AllValid(patterns[..k])
    {
      assert patterns[..k + 1][..k] == patterns[..k];
      if !ValidPattern(patterns[k]) {
        if !skipInvalid {
          return true, after, changed;
        }
        assert WithoutOne(after, patterns[k]) == after;
        continue;
      }
      var more;
      after, more := RemoveMatching(after, patterns[k]);
      changed := changed || more;
    }
    assert patterns[..|patterns|] == patterns;
    failed := false;
  }

  /** The lazily rebuilt view gives what rebuilding it before every operation gives, whatever the view
      holds at first. */
  method RenderEnvironmentOverlay(ev: Evaluator, operations: seq<Operation>, base: Env, initialView: Env,
                                  deferring: bool)
    returns (r: Outcome)
    ensures r == Overlaid(ev, operations, base, deferring)
  {
    var env, view, resolved, stale := base, initialView, true, true;
    for index := 0 to |operations|
      invariant Overlaid(ev, operations[..index], base, deferring) == Applied(env, resolved)
      invariant !stale ==> view == env
    {
      var operation := operations[index];
      assert operations[..index + 1][..index] == operations[..index];
      if operation.Set? {
        if stale {
          view, stale := env, false;
        }
        var failed, after, known := ApplySet(ev, operation.entries, view, deferring);
        if failed {
          FailureStays(ev, operations, index + 1, base, deferring);
          return Failed(index);
        }
        env, resolved, stale := after, resolved && known, true;
        continue;
      }
      var removal := operation.removal;
      if ReadsView(removal) && stale {
        view, stale := env, false;
      }
      if !ReadsView(removal) {
        ViewUnread(ev, removal.patterns, view, env, deferring);
      }
      var res := ResolveUnset(ev, removal, view, deferring);
      assert res == Resolve(ev, removal, env, deferring);
      if res.patterns.None? {
        FailureStays(ev, operations, index + 1, base, deferring);
        return Failed(index);
      }
      var failed, after, changed := ApplyUnset(env, res.patterns.value, deferring && !res.resolved);
      if failed {
        FailureStays(ev, operations, index + 1, base, deferring);
        return Failed(index);
      }
      env, resolved, stale := after, resolved && res.resolved, stale || changed;
    }
    assert operations[..|operations|] == operations;
    r := Applied(env, resolved);
  }

  // ---------------------------------------------------------------------------------------
  // What the operations leave

  predicate StandsAt(s: string, part: string, i: int) {
    0 <= i <= |s| - |part| && s[i..i + |part|] == part
  }

  /** The part stands somewhere in the text. */
  lemma {:induction false} ContainsPart(s: string, part: string)
    ensures Contains(s, part) <==> exists i :: StandsAt(s, part, i)
    decreases |s|
  {
    if part <= s {
      assert StandsAt(s, part, 0);
    } else if s != "" {
      ContainsPart(s[1..], part);
      if i :| StandsAt(s[1..], part, i) {
        assert s[1..][i..i + |part|] == s[i + 1..i + 1 + |part|];
        assert StandsAt(s, part, i + 1);
      }
      if i :| StandsAt(s, part, i) {
        assert i > 0 && s[1..][i - 1..i - 1 + |part|] == s[i..i + |part|];
        assert StandsAt(s[1..], part, i - 1);
      }
    }
  }

  /** What a text becomes: itself, unless it holds a template action. */
  ghost function TextOf(ev: Evaluator, text: string, view: Env): Option<string> {
    if exists i :: StandsAt(text, "{{", i) then ev.render(text, view) else Some(text)
  }

  lemma TextIs(ev: Evaluator, text: string, view: Env)
    ensures Render(ev, text, view) == TextOf(ev, text, view)
  {
    ContainsPart(text, "{{");
  }

  /** A text that is known: it renders, and validation finds no missing value in it. */
  ghost predicate KnownText(text: Option<string>, deferring: bool) {
    text.Some? && !(deferring && exists i :: StandsAt(text.value, "<no value>", i))
  }

  /** What a variable holds after a `set` that declares it so: the text its declaration gives, or nothing if it
      gives nothing, or empty text while its value is not known. */
  ghost predicate Holds(ev: Evaluator, d: Declaration, before: Env, deferring: bool, after: Option<string>) {
    match d
    case Unspecified => after == None
    case Expression(source) =>
      (match ev.eval(source, before)
       case Nothing => after == None
       case AString(text) => after == Some(text)
       case EvaluationError => deferring && after == Some("")
       case _ => false)
    case Text(template) =>
      var text := TextOf(ev, template, before);
      if KnownText(text, deferring) then after == text else deferring && after == Some("")
  }

  function Held(env: Env, name: string): Option<string> {
    if name in env then Some(env[name]) else None
  }

  /** What an entry does to its variable is what its declaration gives. */
  lemma ChangeHolds(ev: Evaluator, d: Declaration, view: Env, deferring: bool)
    ensures
      var change := EntryChange(ev, d, view, deferring);
      change != Abort ==>
        Holds(ev, d, view, deferring,
              if change.Remove? then None else Some(if change.Assign? then change.text else ""))
  {
    if d.Text? {
      TextIs(ev, d.template, view);
      var text := TextOf(ev, d.template, view);
      if text.Some? {
        ContainsPart(text.value, "<no value>");
      }
    }
  }

  /** After a `set` that succeeds each variable it names holds what its declaration gives; all others are as
      before. */
  lemma SetHolds(ev: Evaluator, entries: map<string, Declaration>, before: Env, deferring: bool, name: string)
    requires !Aborts(ev, entries, before, deferring)
    ensures
      var after := Held(AfterSet(ev, entries, entries.Keys, before, deferring), name);
      if name in entries then Holds(ev, entries[name], before, deferring, after) else after == Held(before, name)
  {
    if name in entries {
      ChangeHolds(ev, entries[name], before, deferring);
      assert EntryChange(ev, entries[name], before, deferring) != Abort;
    }
  }

  /** An entry that gives something that is no text, or is unknown outside validation. */
  ghost predicate Refused(ev: Evaluator, d: Declaration, view: Env, deferring: bool) {
    match d
    case Unspecified => false
    case Expression(source) =>
      var value := ev.eval(source, view);
      value.Strings? || value.SomethingElse? || (value.EvaluationError? && !deferring)
    case Text(template) => !deferring && TextOf(ev, template, view).None?
  }

  lemma RefusedAborts(ev: Evaluator, d: Declaration, view: Env, deferring: bool)
    ensures EntryChange(ev, d, view, deferring) == Abort <==> Refused(ev, d, view, deferring)
  {
    if d.Text? {
      TextIs(ev, d.template, view);
    }
  }

  /** A `set` aborts exactly if some entry of it is refused. */
  lemma AbortsExactly(ev: Evaluator, entries: map<string, Declaration>, view: Env, deferring: bool)
    ensures Aborts(ev, entries, view, deferring) <==>
      exists name :: name in entries && Refused(ev, entries[name], view, deferring)
  {
    forall name | name in entries
      ensures EntryChange(ev, entries[name], view, deferring) == Abort <==> Refused(ev, entries[name], view, deferring)
    {
      RefusedAborts(ev, entries[name], view, deferring);
    }
  }

  /** Removing patterns keeps exactly the variables that none of the well-formed ones matches. */
  lemma {:induction false} WithoutExactly(env: Env, patterns: seq<string>, name: string)
    ensures name in Without(env, patterns) <==>
      name in env &&
      forall k :: 0 <= k < |patterns| ==> patterns[k] == "" || !Matches(patterns[k], name)
    ensures name in Without(env, patterns) ==> Without(env, patterns)[name] == env[name]
    decreases |patterns|
  {
    if patterns != [] {
      var n := |patterns| - 1;
      var front := patterns[..n];
      WithoutExactly(env, front, name);
      assert forall k :: 0 <= k < n ==> front[k] == patterns[k];
    }
  }

  /** The patterns of an `unset`, each rendered, in order; outside validation one that does not render fails it. */
  lemma {:induction false} RenderedAre(ev: Evaluator, patterns: seq<string>, view: Env, deferring: bool)
    ensures
      var r := Rendered(ev, patterns, view, deferring);
      var known := forall k :: 0 <= k < |patterns| ==> TextOf(ev, patterns[k], view).Some?;
      && (r.patterns.None? <==> !known && !deferring)
      && (r.resolved <==> known)
      && (known ==> |r.patterns.value| == |patterns| && forall k :: 0 <= k < |patterns| ==>
            TextOf(ev, patterns[k], view) == Some(r.patterns.value[k]))
    decreases |patterns|
  {
    if patterns != [] {
      var n := |patterns| - 1;
      var front := patterns[..n];
      RenderedAre(ev, front, view, deferring);
      TextIs(ev, patterns[n], view);
      assert forall k :: 0 <= k < n ==> front[k] == patterns[k];
    }
  }

  /** An operation works on what those before it left, and evaluates in it. */
  lemma SeesEarlierChanges(ev: Evaluator, operations: seq<Operation>, base: Env, deferring: bool, name: string,
                           source: string, text: string)
    requires Overlaid(ev, operations, base, deferring).Applied?
    requires ev.eval(source, Overlaid(ev, operations, base, deferring).env) == AString(text)
    ensures
      var before := Overlaid(ev, operations, base, deferring);
      Overlaid(ev, operations + [Set(map[name := Expression(source)])], base, deferring) ==
        Applied(before.env[name := text], before.resolved)
  {
    var one := Set(map[name := Expression(source)]);
    var env := Overlaid(ev, operations, base, deferring).env;
    OneMoreOperation(ev, operations, one, base, deferring);
    SetOne(ev, name, source, text, env, deferring);
  }

  lemma OneMoreOperation(ev: Evaluator, operations: seq<Operation>, one: Operation, base: Env, deferring: bool)
    requires Overlaid(ev, operations, base, deferring).Applied?
    ensures
      var before := Overlaid(ev, operations, base, deferring);
      Overlaid(ev, operations + [one], base, deferring) ==
        Operated(ev, one, |operations|, before.env, before.resolved, deferring)
  {
    assert (operations + [one])[..|operations|] == operations;
  }

  lemma SetOne(ev: Evaluator, name: string, source: string, text: string, env: Env, deferring: bool)
    requires ev.eval(source, env) == AString(text)
    ensures
      var entries := map[name := Expression(source)];
      && !Aborts(ev, entries, env, deferring) && AllKnown(ev, entries, entries.Keys, env, deferring)
      && AfterSet(ev, entries, entries.Keys, env, deferring) == env[name := text]
  {
    var entries := map[name := Expression(source)];
    assert EntryChange(ev, Expression(source), env, deferring) == Assign(text);
    assert entries[name] == Expression(source) && entries.Keys == {name};
  }

  /** An `unset` by an expression takes the names it gives, and fails if it gives no list of names. */
  lemma UnsetByExpression(ev: Evaluator, operations: seq<Operation>, base: Env, deferring: bool, source: string)
    requires Overlaid(ev, operations, base, deferring).Applied?
    ensures
      var before := Overlaid(ev, operations, base, deferring);
      var value := ev.eval(source, before.env);
      var after := Overlaid(ev, operations + [Unset(ByExpression(source))], base, deferring);
      && (value.Strings? && AllValid(value.texts) ==>
            after == Applied(Without(before.env, value.texts), before.resolved))
      && (value.EvaluationError? && deferring ==> after == Applied(before.env, false))
      && (after.Failed? <==>
            if value.Strings? then !AllValid(value.texts) else !(value.EvaluationError? && deferring))
  {
    OneMoreOperation(ev, operations, Unset(ByExpression(source)), base, deferring);
  }

  /** A pattern is valid exactly if it is well formed and not empty. */
  lemma ValidPatterns(patterns: seq<string>)
    ensures AllValid(patterns) <==> forall k :: 0 <= k < |patterns| ==> patterns[k] != "" && Tokens(patterns[k]).Some?
  {
  }
}
