/** Name queries over a shader's parameter table. */
module ShaderUtilExtensions {
  import opened Engine

  /** The parameter names of `table`, in index order. */
  function PropertyNames(table: seq<ShaderProperty>): seq<string>
  {
    seq(|table|, i requires 0 <= i < |table| => table[i].name)
  }

  /** Collects the name of every parameter, from index 0 up to the parameter count. */
  method GetShaderPropertyNames(s: Shader) returns (output: seq<string>)
    ensures |output| == |s.properties|
    ensures forall i :: 0 <= i < |output| ==> output[i] == s.properties[i].name
    ensures output == PropertyNames(s.properties)
  {
    output := [];
    var count := |s.properties|;
    if count > 0 {
      for i := 0 to count
        invariant |output| == i
        invariant forall j :: 0 <= j < i ==> output[j] == s.properties[j].name
      {
        output := output + [s.properties[i].name];
      }
    }
  }

  /** Scans the table in index order and stops at the first parameter named `name` (exact, case-sensitive). */
  method HasShaderProperty(s: Shader, name: string) returns (found: bool)
    ensures found <==> exists i :: 0 <= i < |s.properties| && s.properties[i].name == name
    ensures found <==> name in PropertyNames(s.properties)
  {
    var i := 0;
    while i < |s.properties|
      invariant 0 <= i <= |s.properties|
      invariant forall j :: 0 <= j < i ==> s.properties[j].name != name
    {
      if s.properties[i].name == name {
        assert PropertyNames(s.properties)[i] == name;
        return true;
      }
      i := i + 1;
    }
    return false;
  }
}
