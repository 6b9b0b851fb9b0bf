/** Standard output as the program uses it through `print!` and `println!`. */
module Console {

  /** The lines finished so far, and the text printed since the last newline.
      Every string handed to these methods is taken to hold no newline; the
      program's own "\n" escapes are written as separate empty lines. */
  class Stdout {
    var lines: seq<string>
    var pending: string

    constructor ()
      ensures lines == [] && pending == ""
    {
      lines := [];
      pending := "";
    }

    /** `print!`: the text joins the unfinished line. */
    method Print(s: string)
      modifies this
      ensures lines == old(lines) && pending == old(pending) + s
      ensures old(pending) == "" ==> pending == s
    {
      assert pending == "" ==> pending + s == s;
      pending := pending + s;
    }

    /** `println!`: the text ends the unfinished line, which becomes a finished one. */
    method PrintLine(s: string)
      modifies this
      ensures lines == old(lines) + [old(pending) + s] && pending == ""
      ensures old(pending) == "" ==> lines == old(lines) + [s]
    {
      assert pending == "" ==> pending + s == s;
      lines := lines + [pending + s];
      pending := "";
    }
  }
}
