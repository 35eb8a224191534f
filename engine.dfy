/**
 * The parts of the Unity engine that the override core talks to, reduced to
 * what the core observes of them: colour, vector and texture payloads as
 * opaque values, a compiled shader's parameter table, the shared material as
 * a set of total lookups, the per-instance property block as a key-to-value
 * map, and the mesh renderer as the slot the block is bound into.
 */
module Engine {
  import opened Wrappers

  /** An RGBA colour; the core never inspects its channels. */
  datatype Color = Color(r: real, g: real, b: real, a: real)

  const White := Color(1.0, 1.0, 1.0, 1.0)

  /** A four-component vector; the core never inspects its components. */
  datatype Vector4 = Vector4(x: real, y: real, z: real, w: real)

  const ZeroVector := Vector4(0.0, 0.0, 0.0, 0.0)

  /** A reference to a texture asset. A reference that may be null is an `Option<Texture>`. */
  datatype Texture = Texture(handle: nat)

  /** A typed value held under one key of a property block. */
  datatype Value =
    | ColorEntry(color: Color)
    | TextureEntry(texture: Texture)
    | FloatEntry(number: real)
    | VectorEntry(vector: Vector4)

  /**
   * The declared type of a shader parameter. `OtherKind` stands for any
   * value of the engine's enumeration outside the five named ones.
   */
  datatype ShaderPropertyType =
    | ColorKind
    | VectorKind
    | FloatKind
    | RangeKind
    | TexEnvKind
    | OtherKind(code: int)

  /** One row of a shader's parameter table. */
  datatype ShaderProperty = ShaderProperty(name: string, kind: ShaderPropertyType, description: string)

  /** A compiled shader: its parameter table, in declaration (index) order. */
  datatype Shader = Shader(properties: seq<ShaderProperty>)

  /**
   * A shared material: the shader it uses and, for every parameter name,
   * the value the material currently holds for it (`GetColor`, `GetTexture`,
   * `GetFloat`, `GetVector`); a texture slot may hold no texture.
   */
  datatype Material = Material(
    shader: Shader,
    getColor: string -> Color,
    getTexture: string -> Option<Texture>,
    getFloat: string -> real,
    getVector: string -> Vector4)

  /** A transient per-renderer parameter block: typed values keyed by parameter name. */
  class MaterialPropertyBlock {
    var values: map<string, Value>

    constructor ()
      ensures values == map[]
    {
      values := map[];
    }

    method Clear()
      modifies this
      ensures values == map[]
    {
      values := map[];
    }

    method SetColor(name: string, color: Color)
      modifies this
      ensures values == old(values)[name := ColorEntry(color)]
    {
      values := values[name := ColorEntry(color)];
    }

    method SetTexture(name: string, texture: Texture)
      modifies this
      ensures values == old(values)[name := TextureEntry(texture)]
    {
      values := values[name := TextureEntry(texture)];
    }

    method SetFloat(name: string, number: real)
      modifies this
      ensures values == old(values)[name := FloatEntry(number)]
    {
      values := values[name := FloatEntry(number)];
    }

    method SetVector(name: string, vector: Vector4)
      modifies this
      ensures values == old(values)[name := VectorEntry(vector)]
    {
      values := values[name := VectorEntry(vector)];
    }
  }

  /**
   * The renderer of one object: the material it shares with other objects
   * and the override values bound to it (`None` when no block is bound).
   * Binding copies the block's contents, so later writes to the block are
   * not seen until it is bound again.
   */
  class MeshRenderer {
    var sharedMaterial: Option<Material>
    var bound: Option<map<string, Value>>

    constructor (sharedMaterial: Option<Material>, bound: Option<map<string, Value>>)
      ensures this.sharedMaterial == sharedMaterial && this.bound == bound
    {
      this.sharedMaterial := sharedMaterial;
      this.bound := bound;
    }

    /** Copies the bound values into `dest`; with nothing bound, `dest` ends up empty. */
    method GetPropertyBlock(dest: MaterialPropertyBlock)
      modifies dest
      ensures dest.values == if bound.Some? then bound.value else map[]
    {
      dest.values := if bound.Some? then bound.value else map[];
    }

    /** Binds a copy of `block`'s values, or unbinds when `block` is null. */
    method SetPropertyBlock(block: MaterialPropertyBlock?)
      modifies this`bound
      ensures bound == if block == null then None else Some(block.values)
    {
      bound := if block == null then None else Some(block.values);
    }
  }
}
