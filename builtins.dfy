/**
 * The builtin function table. Every builtin takes a variable-length argument
 * list, checks the number of arguments first and the argument types next, and
 * returns an Object; failures are Error objects, never exceptions.
 */
module Builtins {
  import opened Ints
  import opened Objects

  /** `len`: the element count of an Array, the byte count of a String. */
  function Len(args: seq<Object>): (r: Object)
    ensures |args| != 1 ==> r == Error(WrongArgCount(|args|, 1))
    ensures |args| == 1 && args[0].Array? && |args[0].elements| < TwoTo63 ==>
      r == Integer(|args[0].elements| as int64)
    ensures |args| == 1 && args[0].String? && |args[0].bytes| < TwoTo63 ==>
      r == Integer(|args[0].bytes| as int64)
    ensures |args| == 1 && !args[0].Array? && !args[0].String? ==>
      r == Error(Unsupported("len", args[0].Type()))
  {
    if |args| != 1 then Error(WrongArgCount(|args|, 1))
    else match args[0]
      case Array(elements) => Integer(Wrap64(|elements|))
      case String(bytes) => Integer(Wrap64(|bytes|))
      case _ => Error(Unsupported("len", args[0].Type()))
  }

  /** `first`: element 0 of a non-empty Array, Null for an empty one. */
  function First(args: seq<Object>): (r: Object)
    ensures |args| != 1 ==> r == Error(WrongArgCount(|args|, 1))
    ensures |args| == 1 && !args[0].Array? ==> r == Error(MustBe(0, "first", ArrayObj, args[0].Type()))
    ensures |args| == 1 && args[0].Array? ==>
      if |args[0].elements| > 0 then r == args[0].elements[0] else r == Null
  {
    if |args| != 1 then Error(WrongArgCount(|args|, 1))
    else if !args[0].Array? then Error(MustBe(0, "first", ArrayObj, args[0].Type()))
    else
      var elements := args[0].elements;
      if |elements| > 0 then elements[0] else Null
  }

  /** `last`: element n - 1 of a non-empty Array of n elements, Null for an empty one. */
  function Last(args: seq<Object>): (r: Object)
    ensures |args| != 1 ==> r == Error(WrongArgCount(|args|, 1))
    ensures |args| == 1 && !args[0].Array? ==> r == Error(MustBe(0, "last", ArrayObj, args[0].Type()))
    ensures |args| == 1 && args[0].Array? ==>
      if |args[0].elements| > 0 then r == args[0].elements[|args[0].elements| - 1] else r == Null
  {
    if |args| != 1 then Error(WrongArgCount(|args|, 1))
    else if !args[0].Array? then Error(MustBe(0, "last", ArrayObj, args[0].Type()))
    else
      var elements := args[0].elements;
      if |elements| > 0 then elements[|elements| - 1] else Null
  }

  /** `rest`: a new Array of all elements but the first; Null for an empty Array. */
  function Rest(args: seq<Object>): (r: Object)
    ensures |args| != 1 ==> r == Error(WrongArgCount(|args|, 1))
    ensures |args| == 1 && !args[0].Array? ==> r == Error(MustBe(0, "rest", ArrayObj, args[0].Type()))
    ensures |args| == 1 && args[0].Array? && |args[0].elements| == 0 ==> r == Null
    ensures |args| == 1 && args[0].Array? && |args[0].elements| > 0 ==>
      r.Array? && |r.elements| == |args[0].elements| - 1 &&
      forall i :: 0 <= i < |r.elements| ==> r.elements[i] == args[0].elements[i + 1]
  {
    if |args| != 1 then Error(WrongArgCount(|args|, 1))
    else if !args[0].Array? then Error(MustBe(0, "rest", ArrayObj, args[0].Type()))
    else
      var elements := args[0].elements;
      if |elements| > 0 then Array(elements[1..]) else Null
  }

  /** `push`: a new Array with the second argument appended to the elements of the first. */
  function Push(args: seq<Object>): (r: Object)
    ensures |args| != 2 ==> r == Error(WrongArgCount(|args|, 2))
    ensures |args| == 2 && !args[0].Array? ==> r == Error(MustBe(0, "push", ArrayObj, args[0].Type()))
    ensures |args| == 2 && args[0].Array? ==>
      r.Array? && |r.elements| == |args[0].elements| + 1 &&
      r.elements[..|args[0].elements|] == args[0].elements &&
      r.elements[|args[0].elements|] == args[1]
  {
    if |args| != 2 then Error(WrongArgCount(|args|, 2))
    else if !args[0].Array? then Error(MustBe(0, "push", ArrayObj, args[0].Type()))
    else Array(args[0].elements + [args[1]])
  }

  /**
   * `pop`: a new Array without the last element, but only for more than one
   * element; an Array of one element gives Null, as an empty one does.
   */
  function Pop(args: seq<Object>): (r: Object)
    ensures |args| != 1 ==> r == Error(WrongArgCount(|args|, 1))
    ensures |args| == 1 && !args[0].Array? ==> r == Error(MustBe(0, "pop", ArrayObj, args[0].Type()))
    ensures |args| == 1 && args[0].Array? && |args[0].elements| <= 1 ==> r == Null
    ensures |args| == 1 && args[0].Array? && |args[0].elements| > 1 ==>
      r.Array? && |r.elements| == |args[0].elements| - 1 &&
      forall i :: 0 <= i < |r.elements| ==> r.elements[i] == args[0].elements[i]
  {
    if |args| != 1 then Error(WrongArgCount(|args|, 1))
    else if !args[0].Array? then Error(MustBe(0, "pop", ArrayObj, args[0].Type()))
    else
      var elements := args[0].elements;
      if |elements| > 1 then Array(elements[..|elements| - 1]) else Null
  }

  // ---------------------------------------------------------------------------
  // string_join

  /** Go's `strings.Join`: the parts with one separator between neighbours. */
  function Join(parts: seq<seq<byte>>, sep: seq<byte>): (r: seq<byte>)
    ensures parts == [] ==> r == []
    ensures |parts| > 0 ==> |parts[0]| <= |r| && r[..|parts[0]|] == parts[0]
    ensures |parts| > 0 ==> |parts[|parts| - 1]| <= |r| && r[|r| - |parts[|parts| - 1]|..] == parts[|parts| - 1]
  {
    if |parts| == 0 then []
    else if |parts| == 1 then parts[0]
    else parts[0] + sep + Join(parts[1..], sep)
  }

  /** Total number of bytes in the parts. */
  function TotalLength(parts: seq<seq<byte>>): nat
  {
    if parts == [] then 0 else |parts[0]| + TotalLength(parts[1..])
  }

  /** Joining one more part adds a separator and that part at the end. */
  lemma {:induction false} JoinAppend(parts: seq<seq<byte>>, part: seq<byte>, sep: seq<byte>)
    requires |parts| > 0
    ensures Join(parts + [part], sep) == Join(parts, sep) + sep + part
  {
    if |parts| > 1 {
      assert (parts + [part])[1..] == parts[1..] + [part];
      JoinAppend(parts[1..], part, sep);
    } else {
      assert parts + [part] == [parts[0], part];
    }
  }

  /** n parts joined: all their bytes plus n - 1 separators. */
  lemma {:induction false} JoinLength(parts: seq<seq<byte>>, sep: seq<byte>)
    requires |parts| > 0
    ensures |Join(parts, sep)| == TotalLength(parts) + (|parts| - 1) * |sep|
  {
    if |parts| > 1 {
      JoinLength(parts[1..], sep);
      assert TotalLength(parts[1..][1..]) + |parts[1..][0]| == TotalLength(parts[1..]);
    } else {
      assert parts[1..] == [];
    }
  }

  /** The text of each element of an Array of Strings. */
  function Texts(elements: seq<Object>): (texts: seq<seq<byte>>)
    requires forall i :: 0 <= i < |elements| ==> elements[i].String?
    ensures |texts| == |elements|
    ensures forall i :: 0 <= i < |elements| ==> texts[i] == elements[i].bytes
  {
    seq(|elements|, i requires 0 <= i < |elements| => elements[i].bytes)
  }

  /**
   * What `string_join` asks of its caller: when both arguments have the right
   * types, every element of the Array is a String (any other element makes the
   * type assertion panic).
   */
  ghost predicate JoinableElements(args: seq<Object>) {
    |args| == 2 && args[0].Array? && args[1].String? ==>
      forall i :: 0 <= i < |args[0].elements| ==> args[0].elements[i].String?
  }

  /**
   * The result of `string_join`: an Error for a wrong count or the wrong
   * type of either argument, in that order; Null for an empty Array; otherwise
   * the element texts joined with the separator.
   */
  function StringJoinResult(args: seq<Object>): (r: Object)
    requires JoinableElements(args)
    ensures |args| != 2 ==> r == Error(WrongArgCount(|args|, 2))
    ensures |args| == 2 && !args[0].Array? ==>
      r == Error(MustBe(0, "string_join", ArrayObj, args[0].Type()))
    ensures |args| == 2 && args[0].Array? && !args[1].String? ==>
      r == Error(MustBe(1, "string_join", StringObj, args[1].Type()))
    ensures |args| == 2 && args[0].Array? && args[1].String? && args[0].elements == [] ==> r == Null
    ensures |args| == 2 && args[0].Array? && args[1].String? && |args[0].elements| > 0 ==>
      r.String? && r.bytes == Join(Texts(args[0].elements), args[1].bytes) &&
      |r.bytes| == TotalLength(Texts(args[0].elements)) + (|args[0].elements| - 1) * |args[1].bytes|
    ensures |args| == 2 && args[0].Array? && args[1].String? && |args[0].elements| == 1 ==>
      r == args[0].elements[0]
  {
    if |args| != 2 then Error(WrongArgCount(|args|, 2))
    else if !args[0].Array? then Error(MustBe(0, "string_join", ArrayObj, args[0].Type()))
    else if !args[1].String? then Error(MustBe(1, "string_join", StringObj, args[1].Type()))
    else
      var elements := args[0].elements;
      if |elements| > 0 then
        JoinLength(Texts(elements), args[1].bytes);
        String(Join(Texts(elements), args[1].bytes))
      else Null
  }

  /**
   * `string_join` as the source runs it: the element texts are copied into a
   * fresh array one by one, and that array is joined.
   */
  method StringJoin(args: seq<Object>) returns (r: Object)
    requires JoinableElements(args)
    ensures r == StringJoinResult(args)
  {
    if |args| != 2 {
      return Error(WrongArgCount(|args|, 2));
    }
    if !args[0].Array? {
      return Error(MustBe(0, "string_join", ArrayObj, args[0].Type()));
    }
    if !args[1].String? {
      return Error(MustBe(1, "string_join", StringObj, args[1].Type()));
    }
    var elements := args[0].elements;
    var sep := args[1].bytes;
    if |elements| > 0 {
      var texts := new seq<byte>[|elements|];
      for i := 0 to |elements|
        invariant forall k :: 0 <= k < i ==> texts[k] == elements[k].bytes
      {
        texts[i] := elements[i].bytes;
      }
      assert texts[..] == Texts(elements);
      return String(Join(texts[..], sep));
    }
    return Null;
  }

  // ---------------------------------------------------------------------------
  // The table

  /** The entries of the builtin table that the model covers. */
  datatype BuiltinFn = LenFn | FirstFn | LastFn | RestFn | PushFn | PopFn | StringJoinFn {

    function Name(): string {
      match this
      case LenFn => "len"
      case FirstFn => "first"
      case LastFn => "last"
      case RestFn => "rest"
      case PushFn => "push"
      case PopFn => "pop"
      case StringJoinFn => "string_join"
    }

    /** The number of arguments the builtin accepts. */
    function Arity(): nat {
      if this == PushFn || this == StringJoinFn then 2 else 1
    }
  }

  /**
   * The table, keyed by the name a program calls the builtin by: each entry is
   * filed under its own name, and `print` is not among them.
   */
  function Table(): (table: map<string, BuiltinFn>)
    ensures forall b: BuiltinFn :: b.Name() in table && table[b.Name()] == b
    ensures forall name :: name in table ==> table[name].Name() == name
    ensures "print" !in table
  {
    map["len" := LenFn, "first" := FirstFn, "last" := LastFn, "rest" := RestFn,
        "push" := PushFn, "pop" := PopFn, "string_join" := StringJoinFn]
  }

  /**
   * Calls a builtin of the table. Every builtin checks its argument count
   * first, reporting its own arity; next the type of its first argument, where
   * every builtin but `len` wants an Array and names itself in the Error.
   */
  function Apply(b: BuiltinFn, args: seq<Object>): (r: Object)
    requires b == StringJoinFn ==> JoinableElements(args)
    ensures |args| != b.Arity() ==> r == Error(WrongArgCount(|args|, b.Arity()))
    ensures b != LenFn && |args| == b.Arity() && !args[0].Array? ==>
      r == Error(MustBe(0, b.Name(), ArrayObj, args[0].Type()))
    ensures b == LenFn && |args| == 1 && !args[0].Array? && !args[0].String? ==>
      r == Error(Unsupported(b.Name(), args[0].Type()))
  {
    match b
    case LenFn => Len(args)
    case FirstFn => First(args)
    case LastFn => Last(args)
    case RestFn => Rest(args)
    case PushFn => Push(args)
    case PopFn => Pop(args)
    case StringJoinFn => StringJoinResult(args)
  }

  // ---------------------------------------------------------------------------
  // How the array builtins fit together

  /** `first` and `rest` split a non-empty Array into its head and its tail. */
  lemma FirstThenRest(a: Object)
    requires a.Array? && |a.elements| > 0
    ensures Rest([a]).Array? && [First([a])] + Rest([a]).elements == a.elements
  {
  }

  /** `pop` and `last` split an Array of more than one element into its front and its last element. */
  lemma PopThenLast(a: Object)
    requires a.Array? && |a.elements| > 1
    ensures Pop([a]).Array? && Pop([a]).elements + [Last([a])] == a.elements
  {
  }

  /** `pop` undoes `push` on a non-empty Array; on an empty one it gives Null. */
  lemma PopAfterPush(a: Object, x: Object)
    requires a.Array?
    ensures Pop([Push([a, x])]) == if |a.elements| > 0 then a else Null
  {
    if |a.elements| > 0 {
      assert Pop([Push([a, x])]).elements == a.elements;
    }
  }

  /** The last element of a pushed Array is the pushed value, and its length is one more. */
  lemma LastAfterPush(a: Object, x: Object)
    requires a.Array? && |a.elements| + 1 < TwoTo63
    ensures Last([Push([a, x])]) == x
    ensures Len([Push([a, x])]) == Integer((|a.elements| + 1) as int64)
  {
  }

  /** `rest` shortens a non-empty Array by exactly one, as `len` sees it. */
  lemma LenAfterRest(a: Object)
    requires a.Array? && 0 < |a.elements| < TwoTo63
    ensures Len([Rest([a])]) == Integer((|a.elements| - 1) as int64)
  {
  }

  // ---------------------------------------------------------------------------
  // The table as its source is written (see the Findings of the README)

  /** `rest` as written: its type error names `last`. */
  function RestAsWritten(args: seq<Object>): (r: Object)
    ensures |args| == 1 && !args[0].Array? ==> r == Error(MustBe(0, "last", ArrayObj, args[0].Type()))
    ensures !(|args| == 1 && !args[0].Array?) ==> r == Rest(args)
  {
    if |args| == 1 && !args[0].Array? then Error(MustBe(0, "last", ArrayObj, args[0].Type()))
    else Rest(args)
  }

  /** `push` as written: its type error names `last`. */
  function PushAsWritten(args: seq<Object>): (r: Object)
    ensures |args| == 2 && !args[0].Array? ==> r == Error(MustBe(0, "last", ArrayObj, args[0].Type()))
    ensures !(|args| == 2 && !args[0].Array?) ==> r == Push(args)
  {
    if |args| == 2 && !args[0].Array? then Error(MustBe(0, "last", ArrayObj, args[0].Type()))
    else Push(args)
  }

  /** `string_join` as written: its count error says one argument is wanted. */
  function StringJoinAsWritten(args: seq<Object>): (r: Object)
    requires JoinableElements(args)
    ensures |args| != 2 ==> r == Error(WrongArgCount(|args|, 1))
    ensures |args| == 2 ==> r == StringJoinResult(args)
  {
    if |args| != 2 then Error(WrongArgCount(|args|, 1)) else StringJoinResult(args)
  }

  /** `rest(5)` and `push(5, 1)` as written blame `last`, a builtin that was not called. */
  lemma TypeErrorsNameLast()
    ensures RestAsWritten([Integer(5)]) == Error(MustBe(0, "last", ArrayObj, IntegerObj))
    ensures PushAsWritten([Integer(5), Integer(1)]) == Error(MustBe(0, "last", ArrayObj, IntegerObj))
    ensures RestFn.Name() != "last" && PushFn.Name() != "last"
  {
  }

  /** `string_join` with one argument as written reports that one argument is wanted. */
  lemma JoinArityMessageContradicts()
    ensures StringJoinAsWritten([Null]) == Error(WrongArgCount(1, 1))
    ensures StringJoinFn.Arity() == 2
  {
  }
}
