/** The argument splitter of the `testup` command (packages/testup/bin.js). */
module Args {

  /** `Array.prototype.indexOf`: the first position of `x`, or -1. */
  function IndexOf<T(==)>(xs: seq<T>, x: T): (i: int)
    ensures -1 <= i < |xs|
    ensures i < 0 <==> x !in xs
    ensures i >= 0 ==> xs[i] == x && x !in xs[..i]
  {
    if |xs| == 0 then -1
    else if xs[0] == x then 0
    else
      var j := IndexOf(xs[1..], x);
      assert xs[1..][..if j < 0 then 0 else j] == xs[1..1 + (if j < 0 then 0 else j)];
      if j < 0 then -1 else j + 1
  }

  /** `splitArgs(argv, splitter = '--')`: the arguments before the first splitter
      and those after it. */
  function SplitArgs(argv: seq<string>, splitter: string := "--"): (r: (seq<string>, seq<string>))
    ensures splitter !in argv ==> r == (argv, [])
    ensures splitter in argv ==> r.0 + [splitter] + r.1 == argv
    ensures splitter !in r.0
    ensures forall i :: 0 <= i < |argv| && argv[i] == splitter && splitter !in argv[..i] ==>
              r == (argv[..i], argv[i + 1..])
  {
    var index := IndexOf(argv, splitter);
    if index < 0 then (argv, [])
    else
      assert argv == argv[..index] + [splitter] + argv[index + 1..];
      (argv[..index], argv[index + 1..])
  }
}
