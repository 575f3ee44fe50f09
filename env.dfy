/** The binding record that every bind operation returns. */
module EnvRecord {
  import opened Wrappers
  import opened Strconv

  /** One resolved binding: the derived variable name and the string that was observed for it. */
  class Env {
    var Name: string
    var Value: string

    /** A record as `Namespace.new` creates it: the name set, the value still empty. */
    constructor (name: string)
      ensures Name == name && Value == ""
    {
      Name := name;
      Value := "";
    }

    /**
     * The `NAME=value` rendering; the value goes through `Quote` only when it holds a
     * double quote. Being a function, it changes neither field.
     */
    function String(): (r: string)
      reads this
      ensures |r| > |Name| && r[..|Name| + 1] == Name + "="
      ensures '"' !in Value ==> r == Name + "=" + Value
      ensures '"' in Value ==> r == Name + "=" + Quote(Value)
      ensures '"' in Value ==>
        var q := r[|Name| + 1..];
        |q| >= 2 && q[0] == '"' && q[|q| - 1] == '"' && Unquote(q) == Some(Value)
    {
      if '"' in Value then
        QuoteRoundTrip(Value);
        assert (Name + "=" + Quote(Value))[|Name| + 1..] == Quote(Value);
        Name + "=" + Quote(Value)
      else
        Name + "=" + Value
    }
  }
}
