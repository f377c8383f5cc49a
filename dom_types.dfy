/**
 * The property value types of the DOM (`rbx_dom_weak::types`) that the XML
 * codec dispatches on. Only their shape matters to the codec: `Variant` is a
 * closed union of value kinds and `Ty` names the active kind.
 */
module DomTypes {

  /** A 32-bit float, kept as its bit pattern (no arithmetic is modelled). */
  datatype F32 = F32(bits: bv32)

  /** A 64-bit float, kept as its bit pattern. */
  datatype F64 = F64(bits: bv64)

  newtype i32 = x: int | -0x8000_0000 <= x < 0x8000_0000

  datatype Vector3 = Vector3(x: F32, y: F32, z: F32)

  datatype Matrix3 = Matrix3(x: Vector3, y: Vector3, z: Vector3)

  /** A coordinate frame: a position and a rotation matrix. */
  datatype CFrame = CFrame(position: Vector3, orientation: Matrix3)

  /** An opaque blob of bytes. */
  datatype BinaryString = BinaryString(bytes: seq<bv8>)

  /** A reference to an instance; `Null` is the null referent. */
  datatype Ref = Null | Ref(id: nat)

  /** The kind of a `Variant`, as returned by `Variant::ty()`. */
  datatype VariantType =
    | BinaryString
    | Bool
    | BrickColor
    | CFrame
    | Content
    | Enum
    | Float32
    | Float64
    | Int32
    | Ref
    | SharedString
    | String
    | Vector3

  /**
   * A property value. The XML codec registers handlers for BinaryString,
   * Bool, CFrame and String; the other kinds exist in the DOM but have no
   * XML handler.
   */
  datatype Variant =
    | BinaryString(binaryString: BinaryString)
    | Bool(boolean: bool)
    | BrickColor(brickColor: nat)
    | CFrame(cframe: CFrame)
    | Content(content: string)
    | Enum(enumValue: nat)
    | Float32(float32: F32)
    | Float64(float64: F64)
    | Int32(int32: i32)
    | Ref(referent: Ref)
    | SharedString(sharedString: seq<bv8>)
    | String(text: string)
    | Vector3(vector3: Vector3)
  {
    /** The kind of this value: `Ty` maps each constructor to its namesake. */
    function Ty(): VariantType
    {
      match this
      case BinaryString(_) => VariantType.BinaryString
      case Bool(_) => VariantType.Bool
      case BrickColor(_) => VariantType.BrickColor
      case CFrame(_) => VariantType.CFrame
      case Content(_) => VariantType.Content
      case Enum(_) => VariantType.Enum
      case Float32(_) => VariantType.Float32
      case Float64(_) => VariantType.Float64
      case Int32(_) => VariantType.Int32
      case Ref(_) => VariantType.Ref
      case SharedString(_) => VariantType.SharedString
      case String(_) => VariantType.String
      case Vector3(_) => VariantType.Vector3
    }
  }
}
