/**
 * The `playlist` command of the `troi` command line: look the patch up by
 * slug, check the raw arguments against the patch's declared inputs, build
 * the pipeline and generate the playlist.
 *
 * The patch registry is a map, each input's type-coercion callable is the
 * partial function `coerce(i, s)`, and `patch.create` and playlist generation
 * (which may raise `RuntimeError`) are function parameters.
 */
module Command {
  import opened Troi

  /** A declared input of a patch (`input['name']`, `input['optional']`). */
  datatype InputSpec = InputSpec(name: string, optional: bool)

  datatype Patch = Patch(slug: string, inputs: seq<InputSpec>)

  /** The result of calling an input's type on a raw argument: a value, or `ValueError`. */
  datatype Coercion<+V> = Coerced(value: V) | Rejected(reason: string)

  /** Why the argument loop stops the command. */
  datatype ArgError =
    | MissingRequired(index: nat)                  // `args[i]` raises an uncaught `IndexError`
    | InvalidArgument(index: nat, reason: string)  // `ValueError`, reported before `quit()`

  // ---------------------------------------------------------------------
  // The argument loop
  // ---------------------------------------------------------------------

  /** Input `i` passes the loop body: its argument coerces, or it is optional and has no argument. */
  predicate Accepted<V>(inputs: seq<InputSpec>, args: seq<string>, coerce: (nat, string) -> Coercion<V>, i: nat)
    requires i < |inputs|
  {
    if i < |args| then coerce(i, args[i]).Coerced? else inputs[i].optional
  }

  /**
   * The argument loop from input `i` on, one input per step: a required input
   * past the last argument fails, an optional one is skipped, and any other
   * input's argument is coerced, failing on a rejection.
   */
  function CheckFrom<V>(inputs: seq<InputSpec>, args: seq<string>, coerce: (nat, string) -> Coercion<V>, i: nat)
    : Result<seq<V>, ArgError>
    requires i <= |inputs|
    decreases |inputs| - i
  {
    if i == |inputs| then Ok([])
    else if !inputs[i].optional && i >= |args| then Err(MissingRequired(i))
    else if i >= |args| then CheckFrom(inputs, args, coerce, i + 1)
    else
      match coerce(i, args[i])
      case Rejected(why) => Err(InvalidArgument(i, why))
      case Coerced(v) => Prepend([v], CheckFrom(inputs, args, coerce, i + 1))
  }

  function Prepend<V>(done: seq<V>, rest: Result<seq<V>, ArgError>): Result<seq<V>, ArgError> {
    match rest
    case Ok(vs) => Ok(done + vs)
    case Err(e) => Err(e)
  }

  lemma PrependTwice<V>(done: seq<V>, more: seq<V>, rest: Result<seq<V>, ArgError>)
    ensures Prepend(done, Prepend(more, rest)) == Prepend(done + more, rest)
    ensures Prepend([], rest) == rest
  {
    if rest.Ok? {
      assert done + (more + rest.value) == (done + more) + rest.value;
      assert [] + rest.value == rest.value;
    }
  }

  /** `checked_args`, or the error that stops the command. */
  function CheckedArgs<V>(inputs: seq<InputSpec>, args: seq<string>, coerce: (nat, string) -> Coercion<V>)
    : Result<seq<V>, ArgError>
  {
    CheckFrom(inputs, args, coerce, 0)
  }

  function Min(a: int, b: int): int {
    if a < b then a else b
  }

  lemma {:induction false} CheckFromAccepts<V>(inputs: seq<InputSpec>, args: seq<string>, coerce: (nat, string) -> Coercion<V>, i: nat)
    requires i <= |inputs|
    ensures CheckFrom(inputs, args, coerce, i).Ok? <==>
      forall k :: i <= k < |inputs| ==> Accepted(inputs, args, coerce, k)
    ensures CheckFrom(inputs, args, coerce, i).Ok? ==>
      var vals := CheckFrom(inputs, args, coerce, i).value;
      && |vals| == (if Min(|inputs|, |args|) <= i then 0 else Min(|inputs|, |args|) - i)
      && forall j :: 0 <= j < |vals| ==> coerce(i + j, args[i + j]) == Coerced(vals[j])
    ensures CheckFrom(inputs, args, coerce, i).Err? ==>
      var e := CheckFrom(inputs, args, coerce, i).error;
      && i <= e.index < |inputs|
      && !Accepted(inputs, args, coerce, e.index)
      && (forall k :: i <= k < e.index ==> Accepted(inputs, args, coerce, k))
      && (e.MissingRequired? <==> |args| <= e.index)
      && (e.InvalidArgument? ==> coerce(e.index, args[e.index]) == Rejected(e.reason))
    decreases |inputs| - i
  {
    if i < |inputs| {
      CheckFromAccepts(inputs, args, coerce, i + 1);
      assert (forall k :: i <= k < |inputs| ==> Accepted(inputs, args, coerce, k)) <==>
        Accepted(inputs, args, coerce, i) && forall k :: i + 1 <= k < |inputs| ==> Accepted(inputs, args, coerce, k);
    }
  }

  /**
   * The argument loop succeeds exactly when every declared input is accepted;
   * then `checked_args` holds one coerced value per argument position that has
   * a declared input, in order: optional inputs past the last argument add
   * nothing and arguments past the last input are never read.
   */
  lemma CheckedArgsSucceed<V>(inputs: seq<InputSpec>, args: seq<string>, coerce: (nat, string) -> Coercion<V>)
    ensures CheckedArgs(inputs, args, coerce).Ok? <==>
      forall k :: 0 <= k < |inputs| ==> Accepted(inputs, args, coerce, k)
    ensures CheckedArgs(inputs, args, coerce).Ok? ==>
      var vals := CheckedArgs(inputs, args, coerce).value;
      && |vals| == Min(|inputs|, |args|)
      && |vals| <= |inputs|
      && forall j :: 0 <= j < |vals| ==> coerce(j, args[j]) == Coerced(vals[j])
  {
    CheckFromAccepts(inputs, args, coerce, 0);
  }

  /**
   * The loop stops at the first input it does not accept: a required input
   * with no argument, or an argument its type rejects.
   */
  lemma CheckedArgsFail<V>(inputs: seq<InputSpec>, args: seq<string>, coerce: (nat, string) -> Coercion<V>)
    requires CheckedArgs(inputs, args, coerce).Err?
    ensures
      var e := CheckedArgs(inputs, args, coerce).error;
      && e.index < |inputs|
      && (forall k :: 0 <= k < e.index ==> Accepted(inputs, args, coerce, k))
      && (e.MissingRequired? <==> |args| <= e.index && !inputs[e.index].optional)
      && (e.InvalidArgument? <==> e.index < |args| && coerce(e.index, args[e.index]) == Rejected(e.reason))
  {
    CheckFromAccepts(inputs, args, coerce, 0);
  }

  lemma {:induction false} CheckFromIgnoresExtra<V>(inputs: seq<InputSpec>, args: seq<string>, coerce: (nat, string) -> Coercion<V>, i: nat)
    requires i <= |inputs| <= |args|
    ensures CheckFrom(inputs, args, coerce, i) == CheckFrom(inputs, args[..|inputs|], coerce, i)
    decreases |inputs| - i
  {
    if i < |inputs| {
      CheckFromIgnoresExtra(inputs, args, coerce, i + 1);
    }
  }

  /** Arguments beyond the declared inputs change nothing: the loop ranges over the inputs only. */
  lemma CheckedArgsIgnoreExtra<V>(inputs: seq<InputSpec>, args: seq<string>, coerce: (nat, string) -> Coercion<V>)
    requires |inputs| <= |args|
    ensures CheckedArgs(inputs, args, coerce) == CheckedArgs(inputs, args[..|inputs|], coerce)
  {
    CheckFromIgnoresExtra(inputs, args, coerce, 0);
  }

  /** The `for` loop over the patch's inputs that builds `checked_args`. */
  method ValidateArgs<V>(inputs: seq<InputSpec>, args: seq<string>, coerce: (nat, string) -> Coercion<V>)
    returns (r: Result<seq<V>, ArgError>)
    ensures r == CheckedArgs(inputs, args, coerce)
  {
    var checked: seq<V> := [];
    var i := 0;
    PrependTwice(checked, [], CheckedArgs(inputs, args, coerce));
    while i < |inputs|
      invariant i <= |inputs|
      invariant CheckedArgs(inputs, args, coerce) == Prepend(checked, CheckFrom(inputs, args, coerce, i))
    {
      if !inputs[i].optional && i >= |args| {
        return Err(MissingRequired(i));
      }
      if i >= |args| {
        i := i + 1;
        continue;
      }
      match coerce(i, args[i])
      case Rejected(why) =>
        return Err(InvalidArgument(i, why));
      case Coerced(v) =>
        PrependTwice(checked, [v], CheckFrom(inputs, args, coerce, i + 1));
        checked := checked + [v];
      i := i + 1;
    }
    assert checked + [] == checked;
    return Ok(checked);
  }

  // ---------------------------------------------------------------------
  // The command
  // ---------------------------------------------------------------------

  /** The calls the command makes after the arguments are checked, in order. */
  datatype Call<+V> = PatchCreated(args: seq<V>) | GenerateRun | PlaylistPrinted | PlaylistLaunched

  /** How the `playlist` command ends. */
  datatype Outcome<+T> =
    | UnknownPatch(slug: string)         // message, then `quit()`
    | ArgumentsRejected(error: ArgError)  // `quit()`, or the uncaught `IndexError`
    | GenerationFailed(reason: string)   // the `RuntimeError`, reported
    | Generated(entities: seq<T>)        // printed and launched

  /** `playlist PATCH ARGS...` */
  method PlaylistCommand<V, E, T>(
    patches: map<string, Patch>,
    slug: string,
    args: seq<string>,
    coerce: Patch -> ((nat, string) -> Coercion<V>),
    create: (Patch, seq<V>) -> E,
    generate: E -> Result<seq<T>, string>)
    returns (outcome: Outcome<T>, calls: seq<Call<V>>)
    // an unknown slug stops the command before any input is looked at
    ensures slug !in patches ==> outcome == UnknownPatch(slug) && calls == []
    // a rejected argument list stops it before the patch builds anything
    ensures slug in patches && CheckedArgs(patches[slug].inputs, args, coerce(patches[slug])).Err? ==>
      outcome == ArgumentsRejected(CheckedArgs(patches[slug].inputs, args, coerce(patches[slug])).error) &&
      calls == []
    // otherwise the patch is built from the checked arguments and generated;
    // print and launch follow only a successful generation
    ensures slug in patches && CheckedArgs(patches[slug].inputs, args, coerce(patches[slug])).Ok? ==>
      var p := patches[slug];
      var checked := CheckedArgs(p.inputs, args, coerce(p)).value;
      match generate(create(p, checked))
      case Err(why) =>
        outcome == GenerationFailed(why) && calls == [PatchCreated(checked), GenerateRun]
      case Ok(entities) =>
        outcome == Generated(entities) &&
        calls == [PatchCreated(checked), GenerateRun, PlaylistPrinted, PlaylistLaunched]
  {
    calls := [];
    if slug !in patches {
      return UnknownPatch(slug), calls;
    }
    var patch := patches[slug];
    var checked := ValidateArgs(patch.inputs, args, coerce(patch));
    if checked.Err? {
      return ArgumentsRejected(checked.error), calls;
    }
    var pipeline := create(patch, checked.value);
    calls := calls + [PatchCreated(checked.value)];
    var generated := generate(pipeline);
    calls := calls + [GenerateRun];
    if generated.Err? {
      return GenerationFailed(generated.error), calls;
    }
    calls := calls + [PlaylistPrinted, PlaylistLaunched];
    outcome := Generated(generated.value);
  }
}
