/** Functional options: each option transforms the operation's options record, in the order given. */
module Options {

  /** The options record after applying `options`, first to last, to `init`. */
  function Applied<O>(init: O, options: seq<O -> O>): O
    decreases |options|
  {
    if options == [] then init
    else options[|options| - 1](Applied(init, options[..|options| - 1]))
  }

  /** Applying two batches of options in turn is applying their concatenation. */
  lemma {:induction false} AppliedConcat<O>(init: O, first: seq<O -> O>, second: seq<O -> O>)
    ensures Applied(init, first + second) == Applied(Applied(init, first), second)
    decreases |second|
  {
    if second == [] {
      assert first + second == first;
    } else {
      var n := |second| - 1;
      assert (first + second)[..|first + second| - 1] == first + second[..n];
      AppliedConcat(init, first, second[..n]);
    }
  }

  /** The loop every operation starts with: apply each option to the zero record. */
  method ApplyOptions<O>(init: O, options: seq<O -> O>) returns (o: O)
    ensures o == Applied(init, options)
  {
    o := init;
    for i := 0 to |options|
      invariant o == Applied(init, options[..i])
    {
      assert options[..i + 1][..i] == options[..i];
      o := options[i](o);
    }
    assert options[..|options|] == options;
  }
}
