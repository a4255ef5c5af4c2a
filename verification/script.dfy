/** The bytecode vocabulary of the script interpreter: statement classes,
    opcodes, operand kinds and variable scopes, and the value a statement
    yields. */
module Script {
  import opened Bytes

  // Statement classes: the first datum of every statement.
  const EMPTY: int := 0x0000
  const FUNCTION_CALL: int := 0x0067
  const OPERAND: int := 0x0066
  const VARIABLE_REF: int := 0x0065

  const InstructionTypes: seq<int> := [EMPTY, FUNCTION_CALL, OPERAND, VARIABLE_REF]

  // Opcodes, after FUNCTION_CALL.
  const IF_ELSE: int := 202
  const ASSIGN_VARIABLE: int := 203
  const OR: int := 204
  const AND: int := 206
  const EQUALS: int := 207
  const NOT_EQUALS: int := 208
  const LESS_THAN: int := 209
  const GREATER_THAN: int := 210
  const LESS_THAN_OR_EQUAL_TO: int := 211
  const GREATER_THAN_OR_EQUAL_TO: int := 212
  const ADD: int := 213
  const SUBTRACT: int := 214
  const MULTIPLY: int := 215
  const DIVIDE: int := 216
  const MODULO: int := 217
  const UNK2: int := 218
  const CALL_ROUTINE: int := 219
  /** A routine call with an implicit `self` operand ahead of its
      arguments. */
  const CALL_METHOD: int := 220
  const DECLARE_VARIABLES: int := 221
  const RETURN: int := 222
  const UNK1: int := 223
  const WHILE: int := 224

  const Opcodes: seq<int> := [IF_ELSE, ASSIGN_VARIABLE, OR, AND, EQUALS, NOT_EQUALS, LESS_THAN,
    GREATER_THAN, LESS_THAN_OR_EQUAL_TO, GREATER_THAN_OR_EQUAL_TO, ADD, SUBTRACT, MULTIPLY, DIVIDE,
    MODULO, UNK2, CALL_ROUTINE, CALL_METHOD, DECLARE_VARIABLES, RETURN, UNK1, WHILE]

  // Operand kinds, after OPERAND. `EMPTY_OPERAND` marks a default operand
  // and never appears in bytecode.
  const EMPTY_OPERAND: int := 0
  const LITERAL1: int := 151
  const FLOAT1: int := 152
  const LITERAL2: int := 153
  const STRING: int := 154
  const DOLLAR_SIGN_VARIABLE: int := 155
  const ASSET_ID: int := 156
  const FLOAT2: int := 157
  const VARIABLE_DECLARATION: int := 158
  const FUNCTION: int := 160

  const OperandTypes: seq<int> := [LITERAL1, FLOAT1, LITERAL2, STRING, DOLLAR_SIGN_VARIABLE,
    ASSET_ID, FLOAT2, VARIABLE_DECLARATION, FUNCTION]

  // Variable scopes.
  const LOCAL: int := 1
  const PARAMETER: int := 2
  const GLOBAL: int := 4

  predicate Distinct(s: seq<int>) {
    forall i, j :: 0 <= i < j < |s| ==> s[i] != s[j]
  }

  /** The statement classes differ, so the first datum fixes the class. */
  lemma InstructionTypesDistinct()
    ensures Distinct(InstructionTypes)
  {
  }

  predicate Increasing(s: seq<int>) {
    forall i :: 0 <= i < |s| - 1 ==> s[i] < s[i + 1]
  }

  /** A strictly increasing list has no repeats: each element is below
      every later one. */
  lemma {:induction false} IncreasingDistinct(s: seq<int>)
    requires Increasing(s)
    ensures Distinct(s)
    ensures forall j :: 0 < j < |s| ==> s[0] < s[j]
  {
    if |s| > 1 {
      assert Increasing(s[1..]) by {
        forall i | 0 <= i < |s[1..]| - 1 ensures s[1..][i] < s[1..][i + 1] {
          assert s[1..][i] == s[i + 1] && s[1..][i + 1] == s[i + 2];
        }
      }
      IncreasingDistinct(s[1..]);
      forall j | 0 < j < |s| ensures s[0] < s[j] {
        if j > 1 {
          assert s[1..][j - 1] == s[j];
        }
      }
      forall i, j | 0 <= i < j < |s| ensures s[i] != s[j] {
        if i > 0 {
          assert s[1..][i - 1] == s[i] && s[1..][j - 1] == s[j];
        }
      }
    }
  }

  /** The opcodes are listed in increasing order, so they differ. */
  lemma OpcodesDistinct()
    ensures Distinct(Opcodes)
  {
    assert Increasing(Opcodes);
    IncreasingDistinct(Opcodes);
  }

  /** Operand kinds differ, and none of them is the default kind. */
  lemma OperandTypesDistinct()
    ensures Distinct(OperandTypes)
    ensures EMPTY_OPERAND !in OperandTypes
  {
  }

  lemma ScopesDistinct()
    ensures Distinct([LOCAL, PARAMETER, GLOBAL])
  {
  }

  /** A statement's value. `Empty` is the default operand; `Int` and `Float`
      keep the operand kind they were read with; `Asset` holds an asset id,
      with 0 for the null asset. A FLOAT64 value is kept as its raw bytes. */
  datatype Operand =
    | Empty
    | Int(kind: int, i: int)
    | Float(kind: int, bits: seq<byte>)
    | Asset(id: nat)
}
