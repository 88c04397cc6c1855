/**
 * The legacy one-line formatter of lib/gitem/outputter/stdout.py: a key, an
 * optional value and an optional indentation depth become one printed line.
 * Unlike the document renderer it tests the value for truthiness, so every
 * falsy value, not only the empty string, prints as a bare "key:".
 */
module OutputterStdout {
  import opened Values
  import OutputStdout

  /** The line `output(key, value, depth)` prints (without its line terminator). */
  function Line(key: string, value: Scalar := Str(""), depth: nat := 0): (r: string)
    ensures |r| > depth && r[..depth] == Spaces(depth)
    ensures |key| > 0 && key[0] != ' ' ==> r[depth] != ' '
    ensures Truthy(value) ==> r[depth..] == key + ": " + Text(value)
    ensures !Truthy(value) ==> r[depth..] == key + ":"
    ensures '\n' !in key && '\n' !in Text(value) ==> '\n' !in r
  {
    var output := if Truthy(value) then key + ": " + Text(value) else key + ":";
    assert (Spaces(depth) + output)[depth..] == output;
    Spaces(depth) + output
  }

  /** With the defaults, the line is the bare key and a colon, unindented. */
  lemma DefaultLine(key: string)
    ensures Line(key) == key + ":"
    ensures Line(key, Str("value")) == key + ": value"
  {
    assert Spaces(0) == "";
  }

  /**
   * The legacy formatter and the document renderer print the same line for a
   * scalar entry exactly when the value is not one of the falsy non-strings
   * None, False and 0, which the renderer prints as "None", "False" and "0".
   */
  lemma AgreesWithRenderer(key: string, value: Scalar, depth: nat)
    ensures OutputStdout.ScalarLine(Str(key), value, depth) == Line(key, value, depth) <==>
      value !in {Null, Bool(false), Int(0)}
  {
    var legacy := Line(key, value, depth);
    var current := OutputStdout.ScalarLine(Str(key), value, depth);
    if value in {Null, Bool(false), Int(0)} {
      assert |current| > |legacy|;
    } else if value.Str? && value.s == "" {
      assert current == legacy;
    } else {
      assert Truthy(value);
      assert current == Spaces(depth) + (key + ": " + Text(value));
    }
  }
}
