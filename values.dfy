/**
 * The values the encoder walks, standing in for Go reflection, and the
 * zero-value test of util.go.
 *
 * A value is classified by the kind the encoder sees. Text that Go's fmt
 * package would produce (numbers, map keys, pointer addresses, marshaled
 * byte slices) is carried pre-rendered. Where Go compares with the zero
 * value of the slot's type and the model cannot compute it, the value
 * carries that answer as `isZero`.
 */
module Values {
  import opened Wrappers

  datatype Value =
      /** Any value printed by fmt's default formatting; also a non-nil value
          held in an interface-typed slot, which the encoder prints the same way. */
    | Scalar(text: string, isZero: bool)
      /** A struct: its fields in declaration order. */
    | Struct(fields: seq<Field>)
      /** A slice or array: its elements in index order. */
    | List(elems: seq<Value>, isZero: bool)
      /** A map: its entries in the order reflection lists the keys. */
    | Map(entries: seq<Entry>, isZero: bool)
      /** A pointer, with fmt's rendering of the pointer itself. */
    | Ptr(target: Option<Value>, text: string)
      /** A value implementing encoding.TextMarshaler: the printed form of
          the marshaled bytes and the error MarshalText returns. */
    | Marshaler(text: string, err: Option<string>, isZero: bool)
      /** The nil interface. */
    | NilIface

  /** A struct field: its Go name, whether it is embedded, its struct tag
      as key/value pairs, and its current value. */
  datatype Field = Field(name: string, anonymous: bool, tags: map<string, string>, value: Value)

  /** A map entry: the key's fmt rendering and the value stored under it. */
  datatype Entry = Entry(key: string, value: Value)
}

/** util.go: the zero-value test used by omitempty. */
module Util {
  import opened Wrappers
  import opened Values

  /**
   * IsNilOrEmpty: the nil interface, or a value equal to its type's zero
   * value. A struct is zero when every one of its fields is; a pointer
   * when it is nil.
   */
  predicate IsNilOrEmpty(v: Value)
  {
    match v
    case NilIface => true
    case Scalar(_, z) => z
    case Struct(fs) => forall i :: 0 <= i < |fs| ==> IsNilOrEmpty(fs[i].value)
    case List(_, z) => z
    case Map(_, z) => z
    case Ptr(t, _) => t.None?
    case Marshaler(_, _, z) => z
  }

  /** A non-nil pointer is never empty, whatever it points to. */
  lemma NonNilPointerNotEmpty(target: Value, text: string)
    ensures !IsNilOrEmpty(Ptr(Some(target), text))
  {
  }

  /** A struct with one non-empty field is not empty; a struct without fields is. */
  lemma NonEmptyFieldMakesStructNonEmpty(fs: seq<Field>, k: nat)
    requires k < |fs| && !IsNilOrEmpty(fs[k].value)
    ensures !IsNilOrEmpty(Struct(fs))
    ensures IsNilOrEmpty(Struct([]))
  {
  }
}
