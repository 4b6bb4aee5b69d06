/**
 * What reflection and the @ExcelColumn annotation give the generic mapper, as data:
 * each annotated field's name, its Java type and its header aliases in declared order,
 * together with the values those Java types hold.
 */
module Schema {
  import opened Wrappers
  import opened JavaLang

  /**
   * The field types convertToFieldType distinguishes. OtherType is any type it does not
   * know; `holdsString` says whether a String may be stored in such a field (Object or
   * CharSequence may; float, short, char or a List may not).
   */
  datatype FieldType = StringType | IntType | LongType | DoubleType | BooleanType | OtherType(holdsString: bool)

  /** A field's value. StrVal(None) is a null reference. */
  datatype Value =
    | StrVal(str: Option<string>)
    | IntVal(intValue: Int32)
    | LongVal(longValue: Int64)
    | DoubleVal(doubleValue: real)
    | BoolVal(boolValue: bool)
    /** The initial value of a field that cannot hold a String: null, or zero for a primitive. */
    | OtherInitial

  /** One field annotated @ExcelColumn(names = aliases). */
  datatype FieldDecl = FieldDecl(name: string, ftype: FieldType, aliases: seq<string>)

  /** Whether a field of type t can hold v. */
  predicate HasType(v: Value, t: FieldType) {
    match t
    case StringType => v.StrVal?
    case IntType => v.IntVal?
    case LongType => v.LongVal?
    case DoubleType => v.DoubleVal?
    case BooleanType => v.BoolVal?
    case OtherType(holdsString) => if holdsString then v.StrVal? else v.OtherInitial?
  }

  /** The value a Java field of type t has before anything is assigned to it. */
  function DefaultOf(t: FieldType): (v: Value)
    ensures HasType(v, t)
  {
    match t
    case StringType => StrVal(None)
    case IntType => IntVal(0)
    case LongType => LongVal(0)
    case DoubleType => DoubleVal(0.0)
    case BooleanType => BoolVal(false)
    case OtherType(holdsString) => if holdsString then StrVal(None) else OtherInitial
  }

  /** The field values of a freshly constructed instance, in declared order. */
  function Defaults(schema: seq<FieldDecl>): (vs: seq<Value>)
    ensures |vs| == |schema|
    ensures forall i :: 0 <= i < |schema| ==> vs[i] == DefaultOf(schema[i].ftype)
  {
    seq(|schema|, i requires 0 <= i < |schema| => DefaultOf(schema[i].ftype))
  }
}
