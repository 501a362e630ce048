/** The front end's command launcher: it drops empty arguments, picks the
    list of programs to try for a command name, and spawns them one after
    another until one starts. Whether spawning a program succeeds is an
    input: `spawned[i]` says whether the `i`-th candidate started. */
module Cli {

  const EsptoolName: string := "esptool.py"

  /** The programs tried, in order, for the esptool command. */
  const EsptoolFallbacks: seq<string> := ["esptool.py", "esptool-homebrew-arm", "esptool-homebrew-intel"]

  /** The arguments with every empty string removed, order kept. */
  function DropEmpty(cmd: seq<string>): (args: seq<string>)
    ensures "" !in args
    ensures forall x :: x != "" ==> multiset(args)[x] == multiset(cmd)[x]
    ensures |args| <= |cmd|
  {
    if |cmd| == 0 then []
    else
      assert cmd == [cmd[0]] + cmd[1..];
      (if cmd[0] == "" then [] else [cmd[0]]) + DropEmpty(cmd[1..])
  }

  lemma {:induction false} DropEmptyAppend(a: seq<string>, b: seq<string>)
    ensures DropEmpty(a + b) == DropEmpty(a) + DropEmpty(b)
    decreases |a|
  {
    if |a| == 0 {
      assert a + b == b;
    } else {
      assert (a + b)[1..] == a[1..] + b;
      DropEmptyAppend(a[1..], b);
    }
  }

  /** Arguments without empty strings pass through unchanged, so dropping
      empty arguments twice is the same as dropping them once. */
  lemma {:induction false} DropEmptyKeepsNonEmpty(cmd: seq<string>)
    requires "" !in cmd
    ensures DropEmpty(cmd) == cmd
    decreases |cmd|
  {
    if |cmd| > 0 {
      assert "" !in cmd[1..] by {
        assert forall x :: x in cmd[1..] ==> x in cmd;
      }
      DropEmptyKeepsNonEmpty(cmd[1..]);
    }
  }

  /** The programs to try for a command name: the esptool fallbacks for
      "esptool.py", and just the name itself for any other. */
  function Candidates(name: string): (c: seq<string>)
    ensures |c| >= 1 && c[0] == name
    ensures name == EsptoolName ==> |c| == 3 && c[1] == "esptool-homebrew-arm" && c[2] == "esptool-homebrew-intel"
    ensures name != EsptoolName ==> c == [name]
  {
    if name == EsptoolName then EsptoolFallbacks else [name]
  }

  /** One spawn of a program with its arguments. */
  datatype Attempt = Attempt(program: string, args: seq<string>)

  /** What a launch did: the spawns it attempted, in order, and whether it
      wrote and emitted the final error. */
  datatype Run = Run(attempts: seq<Attempt>, errorReported: bool)

  /** Index of the first candidate that starts, or the number of
      candidates when none does. */
  function FirstSpawned(spawned: seq<bool>): (k: nat)
    ensures k <= |spawned|
    ensures forall j :: 0 <= j < k ==> !spawned[j]
    ensures k < |spawned| ==> spawned[k]
  {
    if |spawned| == 0 || spawned[0] then 0 else 1 + FirstSpawned(spawned[1..])
  }

  /** Spawning candidate `index`: on failure the next candidate is tried
      only while `index + 1` is still inside the list; after the last one
      fails, the error is reported. */
  function SpawnAt(candidates: seq<string>, args: seq<string>, spawned: seq<bool>, index: nat): (r: Run)
    requires |spawned| == |candidates| && index < |candidates|
    ensures 1 <= |r.attempts| <= |candidates| - index
    ensures forall j :: 0 <= j < |r.attempts| ==> r.attempts[j] == Attempt(candidates[index + j], args)
    ensures forall j :: index <= j < index + |r.attempts| - 1 ==> !spawned[j]
    ensures spawned[index + |r.attempts| - 1] || index + |r.attempts| == |candidates|
    ensures r.errorReported <==> forall j :: index <= j < |candidates| ==> !spawned[j]
    decreases |candidates| - index
  {
    var attempt := Attempt(candidates[index], args);
    if spawned[index] then Run([attempt], false)
    else if index + 1 < |candidates| then
      var rest := SpawnAt(candidates, args, spawned, index + 1);
      Run([attempt] + rest.attempts, rest.errorReported)
    else Run([attempt], true)
  }

  /** Launching command `name` with arguments `cmd`. */
  function Execute(name: string, cmd: seq<string>, spawned: seq<bool>): (r: Run)
    requires |spawned| == |Candidates(name)|
    ensures |r.attempts| == if FirstSpawned(spawned) < |spawned| then FirstSpawned(spawned) + 1 else |spawned|
    ensures forall j :: 0 <= j < |r.attempts| ==> r.attempts[j].program == Candidates(name)[j]
    ensures forall j :: 0 <= j < |r.attempts| ==> r.attempts[j].args == DropEmpty(cmd)
    ensures r.errorReported <==> FirstSpawned(spawned) == |spawned|
  {
    SpawnAt(Candidates(name), DropEmpty(cmd), spawned, 0)
  }

  /** A launch that starts with its first candidate spawns exactly once and
      reports nothing. */
  lemma FirstCandidateStarts(name: string, cmd: seq<string>, spawned: seq<bool>)
    requires |spawned| == |Candidates(name)| && spawned[0]
    ensures Execute(name, cmd, spawned) == Run([Attempt(name, DropEmpty(cmd))], false)
  {
  }

  /** When every esptool candidate fails, all three are tried in order and
      the error is reported once. */
  lemma EsptoolAllFail(cmd: seq<string>)
    ensures var r := Execute(EsptoolName, cmd, [false, false, false]);
            r.errorReported &&
            r.attempts == [Attempt("esptool.py", DropEmpty(cmd)),
                           Attempt("esptool-homebrew-arm", DropEmpty(cmd)),
                           Attempt("esptool-homebrew-intel", DropEmpty(cmd))]
  {
    var r := Execute(EsptoolName, cmd, [false, false, false]);
    assert |r.attempts| == 3;
  }
}
