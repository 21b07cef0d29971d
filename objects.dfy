/** The runtime object model shared by the virtual machine and the builtins. */
module Objects {
  import opened Ints

  /** The type tags that `Object.Type()` reports. */
  datatype ObjectType = IntegerObj | BooleanObj | StringObj | ArrayObj | NullObj | ErrorObj | BuiltinObj

  /**
   * The content of an Error object. The builtins format these facts into a
   * message text; the model keeps the facts and not the text.
   */
  datatype Message =
    | WrongArgCount(got: nat, want: nat)
      // "argument to `<builtin>` not supported, got <type>"
    | Unsupported(builtin: string, actual: ObjectType)
      // "argument[<argument>] to `<builtin>` must be <expected>, got=<type>"
    | MustBe(argument: nat, builtin: string, expected: ObjectType, actual: ObjectType)

  /** A runtime value. Strings are byte sequences, as Go strings are. */
  datatype Object =
    | Integer(value: int64)
    | Boolean(truth: bool)
    | String(bytes: seq<byte>)
    | Array(elements: seq<Object>)
    | Null
    | Error(message: Message)
    | Builtin(name: string)
  {
    function Type(): ObjectType {
      match this
      case Integer(_) => IntegerObj
      case Boolean(_) => BooleanObj
      case String(_) => StringObj
      case Array(_) => ArrayObj
      case Null => NullObj
      case Error(_) => ErrorObj
      case Builtin(_) => BuiltinObj
    }
  }

  /** The type tags of two objects agree exactly when they are the same variant. */
  lemma TypeIsVariant(a: Object, b: Object)
    ensures a.Type() == b.Type() <==>
      (a.Integer? && b.Integer?) || (a.Boolean? && b.Boolean?) || (a.String? && b.String?) ||
      (a.Array? && b.Array?) || (a.Null? && b.Null?) || (a.Error? && b.Error?) ||
      (a.Builtin? && b.Builtin?)
  {
  }
}
