/**
  Messages and the normalisation of a variadic argument list into one flat list of
  messages, shared by the scientist agent (`format_msg`) and the AnythingLLM model
  wrapper (`format`), together with newline joining of prompt lines.
 */
module Messages {
  import opened Outcomes

  /** An agentscope message: who sent it, what it says, and its conversational role. */
  datatype Msg = Msg(name: string, content: string, role: string)

  /** An element of a list argument: a message, or a value of another type (named by its type). */
  datatype Item = MsgItem(msg: Msg) | OtherItem(typeName: string)

  /**
    One argument of the variadic call: `None`, a single message, a Python list,
    or a value of any other type (a string, a tuple, ...), named by its type.
   */
  datatype Arg = Absent | One(msg: Msg) | Many(items: seq<Item>) | Other(typeName: string)

  predicate AllMsgs(items: seq<Item>) {
    forall i :: 0 <= i < |items| ==> items[i].MsgItem?
  }

  /** The messages of a list made only of messages, in list order. */
  function ItemMsgs(items: seq<Item>): (r: seq<Msg>)
    requires AllMsgs(items)
    ensures |r| == |items|
    ensures forall i :: 0 <= i < |items| ==> items[i] == MsgItem(r[i])
  {
    seq(|items|, i requires 0 <= i < |items| => items[i].msg)
  }

  /** Whether normalisation accepts the argument: `None`, a message, or a list of messages only. */
  predicate Accepted(a: Arg) {
    a.Absent? || a.One? || (a.Many? && AllMsgs(a.items))
  }

  /** The Python type name that the TypeError message reports for an argument. */
  function TypeName(a: Arg): string {
    match a
    case Absent => "NoneType"
    case One(_) => "Msg"
    case Many(_) => "list"
    case Other(t) => t
  }

  /** The messages an accepted argument contributes: none, itself, or the list's elements. */
  function Contribution(a: Arg): (r: seq<Msg>)
    requires Accepted(a)
    ensures a.Absent? ==> r == []
    ensures a.One? ==> r == [a.msg]
    ensures a.Many? ==> |r| == |a.items| && forall i :: 0 <= i < |r| ==> a.items[i] == MsgItem(r[i])
  {
    match a
    case Absent => []
    case One(m) => [m]
    case Many(items) => ItemMsgs(items)
  }

  /**
    Reference meaning of normalisation: the arguments' contributions concatenated in
    argument order, or the TypeError of the first argument that is not accepted.
   */
  function Normalize(args: seq<Arg>): Result<seq<Msg>>
    decreases |args|
  {
    if args == [] then Ok([])
    else if !Accepted(args[0]) then Err(TypeMismatch(TypeName(args[0])))
    else match Normalize(args[1..])
      case Err(e) => Err(e)
      case Ok(rest) => Ok(Contribution(args[0]) + rest)
  }

  /** Normalisation of two argument lists one after the other. */
  lemma {:induction false} NormalizeAppend(a: seq<Arg>, b: seq<Arg>)
    ensures Normalize(a + b) ==
      match Normalize(a)
      case Err(e) => Err(e)
      case Ok(x) => (match Normalize(b) case Err(e) => Err(e) case Ok(y) => Ok(x + y))
  {
    if a == [] {
      assert a + b == b;
      if Normalize(b).Ok? {
        assert [] + Normalize(b).value == Normalize(b).value;
      }
    } else {
      assert (a + b)[0] == a[0];
      assert (a + b)[1..] == a[1..] + b;
      NormalizeAppend(a[1..], b);
      if Accepted(a[0]) && Normalize(a[1..]).Ok? && Normalize(b).Ok? {
        assert Contribution(a[0]) + (Normalize(a[1..]).value + Normalize(b).value)
            == (Contribution(a[0]) + Normalize(a[1..]).value) + Normalize(b).value;
      }
    }
  }

  /** A single argument normalises to its contribution or to its TypeError. */
  lemma NormalizeSingle(a: Arg)
    ensures Normalize([a]) == if Accepted(a) then Ok(Contribution(a)) else Err(TypeMismatch(TypeName(a)))
  {
    assert [a][1..] == [];
    if Accepted(a) {
      assert Contribution(a) + [] == Contribution(a);
    }
  }

  /** Normalisation succeeds exactly when every argument is accepted: one bad argument fails the call. */
  lemma {:induction false} NormalizeOkIff(args: seq<Arg>)
    ensures Normalize(args).Ok? <==> forall i :: 0 <= i < |args| ==> Accepted(args[i])
  {
    if args != [] {
      NormalizeOkIff(args[1..]);
      assert forall i :: 1 <= i < |args| ==> args[i] == args[1..][i - 1];
    }
  }

  /** A failure reports the type of the first argument that is not accepted. */
  lemma {:induction false} NormalizeErrNamesFirstRejected(args: seq<Arg>)
    requires Normalize(args).Err?
    ensures exists k ::
              0 <= k < |args| && !Accepted(args[k]) &&
              (forall i :: 0 <= i < k ==> Accepted(args[i])) &&
              Normalize(args).error == TypeMismatch(TypeName(args[k]))
  {
    if Accepted(args[0]) {
      NormalizeErrNamesFirstRejected(args[1..]);
      var k :| 0 <= k < |args[1..]| && !Accepted(args[1..][k]) &&
        (forall i :: 0 <= i < k ==> Accepted(args[1..][i])) &&
        Normalize(args[1..]).error == TypeMismatch(TypeName(args[1..][k]));
      assert forall i :: 1 <= i < k + 1 ==> args[i] == args[1..][i - 1];
      assert !Accepted(args[k + 1]);
    } else {
      assert !Accepted(args[0]);
    }
  }

  /** A `None` argument contributes nothing, wherever it stands. */
  lemma AbsentSkipped(a: seq<Arg>, b: seq<Arg>)
    ensures Normalize(a + [Absent] + b) == Normalize(a + b)
  {
    NormalizeAppend(a + [Absent], b);
    NormalizeAppend(a, [Absent]);
    NormalizeAppend(a, b);
    NormalizeSingle(Absent);
    if Normalize(a).Ok? {
      assert Normalize(a).value + [] == Normalize(a).value;
    }
  }

  /** Nothing is dropped and nothing invented: a message is in the result iff some argument contributes it. */
  lemma {:induction false} NormalizeMembers(args: seq<Arg>, m: Msg)
    requires Normalize(args).Ok?
    ensures m in Normalize(args).value <==>
      exists i :: 0 <= i < |args| && Accepted(args[i]) && m in Contribution(args[i])
  {
    if args != [] {
      NormalizeMembers(args[1..], m);
      assert forall i :: 1 <= i < |args| ==> args[i] == args[1..][i - 1];
      if m in Normalize(args).value && m !in Contribution(args[0]) {
        var i :| 0 <= i < |args[1..]| && Accepted(args[1..][i]) && m in Contribution(args[1..][i]);
        assert args[i + 1] == args[1..][i];
      }
    }
  }

  /**
    The loop of `format_msg`: skip `None`, append a message, extend by a list made only of
    messages, and raise a TypeError for anything else.
   */
  method FormatMsg(args: seq<Arg>) returns (r: Result<seq<Msg>>)
    ensures r == Normalize(args)
  {
    var inputMsgs: seq<Msg> := [];
    var i := 0;
    while i < |args|
      invariant 0 <= i <= |args|
      invariant Normalize(args[..i]) == Ok(inputMsgs)
    {
      var a := args[i];
      NormalizeAppend(args[..i], [a]);
      NormalizeSingle(a);
      assert args[..i + 1] == args[..i] + [a];
      if a.Absent? {
        assert inputMsgs + [] == inputMsgs;
      } else if a.One? {
        inputMsgs := inputMsgs + [a.msg];
      } else if a.Many? && AllMsgs(a.items) {
        inputMsgs := inputMsgs + ItemMsgs(a.items);
      } else {
        assert Normalize(args[..i + 1]) == Err(TypeMismatch(TypeName(a)));
        NormalizeAppend(args[..i + 1], args[i + 1..]);
        assert args[..i + 1] + args[i + 1..] == args;
        return Err(TypeMismatch(TypeName(a)));
      }
      i := i + 1;
    }
    assert args[..i] == args;
    r := Ok(inputMsgs);
  }

  /** Python's `"\n".join(parts)`. */
  function Join(parts: seq<string>): string
    decreases |parts|
  {
    if parts == [] then ""
    else if |parts| == 1 then parts[0]
    else parts[0] + "\n" + Join(parts[1..])
  }

  /** Joining two non-empty line lists puts one newline between them. */
  lemma {:induction false} JoinAppend(a: seq<string>, b: seq<string>)
    requires a != [] && b != []
    ensures Join(a + b) == Join(a) + "\n" + Join(b)
  {
    assert (a + b)[0] == a[0];
    assert (a + b)[1..] == a[1..] + b;
    if |a| > 1 {
      JoinAppend(a[1..], b);
    }
  }

  /** The joined text starts with the first line. */
  lemma JoinFirst(parts: seq<string>)
    requires parts != []
    ensures parts[0] <= Join(parts)
  {
    if |parts| > 1 {
      assert Join(parts) == parts[0] + ("\n" + Join(parts[1..]));
    }
  }

  /** The joined text ends with a newline and the last line, after the join of the lines before it. */
  lemma JoinLast(parts: seq<string>)
    requires |parts| > 1
    ensures Join(parts) == Join(parts[..|parts| - 1]) + "\n" + parts[|parts| - 1]
  {
    var n := |parts|;
    var init, last := parts[..n - 1], [parts[n - 1]];
    assert init + last == parts;
    JoinAppend(init, last);
  }

  /** The joined text of several lines ends with a newline and the last line. */
  lemma JoinEndsWithLast(parts: seq<string>)
    requires |parts| > 1
    ensures |parts[|parts| - 1]| < |Join(parts)|
    ensures Join(parts)[|Join(parts)| - |parts[|parts| - 1]| - 1..] == "\n" + parts[|parts| - 1]
  {
    JoinLast(parts);
    var front, tail := Join(parts[..|parts| - 1]), "\n" + parts[|parts| - 1];
    assert Join(parts) == front + tail;
    assert (front + tail)[|front|..] == tail;
  }

  /** Position of the first newline of a text that has one. */
  function NewlineIndex(s: string): (k: nat)
    requires '\n' in s
    ensures k < |s| && s[k] == '\n' && '\n' !in s[..k]
  {
    if s[0] == '\n' then 0
    else
      var k := NewlineIndex(s[1..]);
      assert s[..k + 1] == [s[0]] + s[1..][..k];
      k + 1
  }

  /** Python's `s.split("\n")`. */
  function Split(s: string): (r: seq<string>)
    ensures r != []
    decreases |s|
  {
    if '\n' !in s then [s]
    else
      var k := NewlineIndex(s);
      [s[..k]] + Split(s[k + 1..])
  }

  /** Splitting undoes joining as long as no line holds a newline of its own. */
  lemma {:induction false} SplitJoin(parts: seq<string>)
    requires parts != []
    requires forall i :: 0 <= i < |parts| ==> '\n' !in parts[i]
    ensures Split(Join(parts)) == parts
  {
    if |parts| > 1 {
      var p, t := parts[0], Join(parts[1..]);
      var s := p + "\n" + t;
      assert Join(parts) == s;
      assert s[|p|] == '\n';
      var k := NewlineIndex(s);
      assert k == |p|;
      assert s[..k] == p;
      assert s[k + 1..] == t;
      assert forall i :: 0 <= i < |parts[1..]| ==> parts[1..][i] == parts[i + 1];
      SplitJoin(parts[1..]);
    }
  }
}
