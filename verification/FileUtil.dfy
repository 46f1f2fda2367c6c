/** base/FileUtil.cpp, AppendFile: appending to a file through writes that may be short. */
module FileUtil {

  function Sum(ns: seq<nat>): nat {
    if ns == [] then 0 else Sum(ns[..|ns| - 1]) + ns[|ns| - 1]
  }

  lemma SumSnoc(ns: seq<nat>, n: nat)
    ensures Sum(ns + [n]) == Sum(ns) + n
  {
    assert (ns + [n])[..|ns|] == ns;
  }

  /** A kernel that takes nothing only the first time it is asked, if ever. */
  predicate KeepsTaking(answers: seq<nat>) {
    forall i :: 0 < i < |answers| ==> answers[i] > 0
  }

  class AppendFile {
    var written: string
    ghost var answers: seq<nat>   // what every write took

    constructor ()
      ensures written == "" && answers == []
    {
      written, answers := "", [];
    }

    /** fwrite_unlocked: takes any number of characters, possibly none. */
    method Fwrite(data: string) returns (n: nat)
      modifies this
      ensures n <= |data| && written == old(written) + data[..n] && answers == old(answers) + [n]
    {
      n :| 0 <= n <= |data|;
      written := written + data[..n];
      answers := answers + [n];
    }

    /** Writes the characters of `logline` in order, each once, in as many writes as it takes. `these` is what
        those writes took. It falls short exactly when one of them after the first takes nothing, which is then
        the last. */
    method Append(logline: string) returns (n: nat, gaveUp: bool, ghost these: seq<nat>)
      modifies this
      ensures answers == old(answers) + these && n == Sum(these) && these != []
      ensures n <= |logline| && written == old(written) + logline[..n]
      ensures gaveUp <==> n < |logline|
      ensures gaveUp <==> !KeepsTaking(these)
      ensures KeepsTaking(these[..|these| - 1])
    {
      n := Fwrite(logline);
      these := [n];
      SumSnoc([], n);
      gaveUp := false;
      var remain := |logline| - n;
      while remain > 0
        invariant !gaveUp && n <= |logline| && remain == |logline| - n
        invariant written == old(written) + logline[..n]
        invariant answers == old(answers) + these && n == Sum(these) && these != [] && KeepsTaking(these)
        decreases remain
      {
        var x := Fwrite(logline[n..n + remain]);
        SumSnoc(these, x);
        these := these + [x];
        assert these[|these| - 1] == x;
        if x == 0 {
          gaveUp := true;
          break;
        }
        assert logline[..n + x] == logline[..n] + logline[n..n + remain][..x];
        n := n + x;
        remain := |logline| - n;
      }
    }
  }
}
