/** How the started programs read their argument lists: a later setting wins over an earlier one. */
module CommandLines {
  import opened Wrappers

  predicate HasEquals(s: string) {
    '=' in s
  }

  /** What holds after a second reading on top of a first. */
  function Override<T>(first: Option<T>, second: Option<T>): Option<T> {
    if second.Some? then second else first
  }

  /* ---- Python's argparse, as vLLM uses it ---- */

  /**
   The value of the last `option value` or `option=value`. The token after the option is its value here, even
   where argparse would refuse the list for it.
   */
  function LastOption(args: seq<string>, option: string): Option<string>
    decreases |args|
  {
    if args == [] then None else
      var last := |args| - 1;
      if option + "=" <= args[last] then Some(args[last][|option| + 1..])
      else if last > 0 && args[last - 1] == option then Some(args[last])
      else LastOption(args[..last], option)
  }

  lemma {:induction false} LastOptionJoin(a: seq<string>, b: seq<string>, option: string)
    requires a == [] || a[|a| - 1] != option
    ensures LastOption(a + b, option) == Override(LastOption(a, option), LastOption(b, option))
    decreases |b|
  {
    if b == [] {
      assert a + b == a;
    } else {
      var last := |b| - 1;
      LastOptionJoin(a, b[..last], option);
      assert (a + b)[..|a| + last] == a + b[..last];
    }
  }

  /* ---- Go's flags, as the endpoint picker and the routing proxy use them ---- */

  /** A token that stands alone: `--name=value`, or a switch. */
  predicate Alone(arg: string, switches: set<string>) {
    HasEquals(arg) || arg in switches
  }

  /** The last setting of a flag; a name that does not stand alone takes the next token, whatever it is. */
  function GoFlag(args: seq<string>, switches: set<string>, flag: string): Option<string>
    decreases |args|
  {
    if args == [] then None
    else if Alone(args[0], switches) then
      Override(if flag + "=" <= args[0] then Some(args[0][|flag| + 1..])
               else if args[0] == flag then Some("true") else None,
               GoFlag(args[1..], switches, flag))
    else if |args| == 1 then None
    else Override(if args[0] == flag then Some(args[1]) else None, GoFlag(args[2..], switches, flag))
  }

  /** The reading of the list ends at its end: no name is left without its value. */
  predicate Complete(args: seq<string>, switches: set<string>)
    decreases |args|
  {
    args == [] ||
    if Alone(args[0], switches) then Complete(args[1..], switches)
    else |args| > 1 && Complete(args[2..], switches)
  }

  /** Lists are read one after the other. */
  lemma {:induction false} GoFlagJoin(a: seq<string>, b: seq<string>, switches: set<string>, flag: string)
    requires Complete(a, switches)
    ensures GoFlag(a + b, switches, flag) == Override(GoFlag(a, switches, flag), GoFlag(b, switches, flag))
    ensures Complete(b, switches) ==> Complete(a + b, switches)
    decreases |a|
  {
    if a == [] {
      assert a + b == b;
    } else if Alone(a[0], switches) {
      GoFlagJoin(a[1..], b, switches, flag);
      assert (a + b)[1..] == a[1..] + b;
    } else {
      GoFlagJoin(a[2..], b, switches, flag);
      assert (a + b)[2..] == a[2..] + b;
    }
  }

  lemma {:induction false} AloneIsComplete(args: seq<string>, switches: set<string>)
    requires forall i | 0 <= i < |args| :: Alone(args[i], switches)
    ensures Complete(args, switches)
  {
    if args != [] {
      AloneIsComplete(args[1..], switches);
    }
  }

  /** A single token that stands alone. */
  lemma GoSingle(arg: string, switches: set<string>, flag: string)
    requires HasEquals(arg) && !HasEquals(flag)
    ensures GoFlag([arg], switches, flag) == if flag + "=" <= arg then Some(arg[|flag| + 1..]) else None
    ensures Complete([arg], switches)
  {
    assert [arg][1..] == [] && arg != flag;
  }

  lemma SamePrefix(head: string, a: string, b: string)
    ensures head + a <= head + b <==> a <= b
  {
    assert (head + b)[|head|..] == b && (head + a)[|head|..] == a;
    if a <= b {
      assert (head + b)[..|head| + |a|] == head + b[..|a|];
    }
  }

  /** An assignment sets the flag of its name and no other. */
  lemma AssignmentSets(name: string, value: string, flag: string)
    requires !HasEquals(name) && !HasEquals(flag)
    ensures flag + "=" <= name + "=" + value <==> flag == name
    ensures (name + "=" + value)[|name| + 1..] == value && HasEquals(name + "=" + value)
    ensures flag != name + "=" + value
  {
    var arg := name + "=" + value;
    assert arg[|name|] == '=' && forall i | 0 <= i < |name| :: arg[i] == name[i] && arg[i] != '=';
    if flag + "=" <= arg {
      assert arg[|flag|] == (flag + "=")[|flag|] == '=';
      assert forall i | 0 <= i < |flag| :: arg[i] == (flag + "=")[i] == flag[i] && flag[i] != '=';
      assert |flag| == |name|;
    }
  }

  lemma GoAssignment(name: string, value: string, switches: set<string>, flag: string)
    requires !HasEquals(name) && !HasEquals(flag)
    ensures GoFlag([name + "=" + value], switches, flag) == if flag == name then Some(value) else None
    ensures Complete([name + "=" + value], switches)
  {
    AssignmentSets(name, value, flag);
    assert [name + "=" + value][1..] == [];
  }

  lemma GoPair(name: string, value: string, switches: set<string>, flag: string)
    requires !HasEquals(name) && name !in switches
    ensures GoFlag([name, value], switches, flag) == if flag == name then Some(value) else None
    ensures Complete([name, value], switches)
  {
    assert [name, value][2..] == [];
  }

  /** One more assignment at the end of a list. */
  lemma AssignmentAppended(args: seq<string>, name: string, value: string, switches: set<string>, flag: string)
    requires Complete(args, switches) && !HasEquals(name) && !HasEquals(flag)
    ensures GoFlag(args + [name + "=" + value], switches, flag) ==
            Override(GoFlag(args, switches, flag), if flag == name then Some(value) else None)
    ensures Complete(args + [name + "=" + value], switches)
  {
    GoAssignment(name, value, switches, flag);
    GoFlagJoin(args, [name + "=" + value], switches, flag);
  }

  /** One more name and its value at the end of a list. */
  lemma PairAppended(args: seq<string>, name: string, value: string, switches: set<string>, flag: string)
    requires Complete(args, switches) && !HasEquals(name) && name !in switches
    ensures GoFlag(args + [name, value], switches, flag) ==
            Override(GoFlag(args, switches, flag), if flag == name then Some(value) else None)
    ensures Complete(args + [name, value], switches)
  {
    GoPair(name, value, switches, flag);
    GoFlagJoin(args, [name, value], switches, flag);
  }
}
