/** JSON values as the two sides exchange them: objects keep their fields in insertion order. */
module Json {

  datatype Field = Field(key: string, value: Value)

  datatype Value =
    | Null
    | Bool(b: bool)
    | Num(n: real)
    | Str(s: string)
    | Arr(items: seq<Value>)
    | Obj(fields: seq<Field>)

  function Digit(d: nat): char
    requires d < 10
  {
    "0123456789"[d]
  }

  /** The decimal spelling of an array index. */
  function Index(n: nat): (text: string)
    ensures text != "" && '0' <= text[0] <= '9'
  {
    if n < 10 then [Digit(n)] else Index(n / 10) + [Digit(n % 10)]
  }

  /** The enumerable own entries of a non-null value: indices for arrays and strings. */
  function Entries(v: Value): seq<Field> {
    match v
    case Obj(fields) => fields
    case Arr(items) => seq(|items|, i requires 0 <= i < |items| => Field(Index(i), items[i]))
    case Str(s) => seq(|s|, i requires 0 <= i < |s| => Field(Index(i), Str([s[i]])))
    case _ => []
  }

  function LowerChar(c: char): char {
    if 'A' <= c <= 'Z' then c - 'A' + 'a' else c
  }

  function Lower(s: string): string {
    seq(|s|, i requires 0 <= i < |s| => LowerChar(s[i]))
  }

  predicate OccursAt(text: string, part: string, i: int) {
    0 <= i <= |text| - |part| && text[i..i + |part|] == part
  }

  predicate Contains(text: string, part: string) {
    exists i :: 0 <= i <= |text| - |part| && OccursAt(text, part, i)
  }
}
