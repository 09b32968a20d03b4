/**
 * Argument resolution (`parseArguments`, xq.go:85-113): merges the long and
 * short flag aliases into one source and one XPath expression.  Whether
 * standard input is a character device (a terminal) is the one fact the Go
 * code reads from the process; here it is the input `charDevice`.
 */
module Arguments {
  import opened Wrappers
  import opened Errors

  /**
   * The named results start at Go's zero values and are overwritten step by
   * step, with an early return on each error, as in the source.
   */
  method ParseArguments(longFile: string, shortFile: string, longXpath: string, shortXpath: string,
                        charDevice: bool)
    returns (file: string, xpath: string, stdin: bool, err: Option<Error>)
    // piped standard input: the file aliases are not looked at
    ensures !charDevice ==> stdin && file == ""
    // a terminal: `--file` wins over `-f`, either one alone is taken unchanged
    ensures charDevice && longFile != "" ==> file == longFile
    ensures charDevice && longFile == "" ==> file == shortFile
    // no file at all stops before the expression is resolved
    ensures err == Some(MissingFile) <==> charDevice && longFile == "" && shortFile == ""
    ensures err == Some(MissingFile) ==> xpath == "" && !stdin
    // the sentinel "-" turns standard input on
    ensures charDevice && file != "" ==> stdin == (file == "-")
    // `--xpath` wins over `-x`; an empty expression is the only other error
    ensures err != Some(MissingFile) && longXpath != "" ==> xpath == longXpath
    ensures err != Some(MissingFile) && longXpath == "" ==> xpath == shortXpath
    ensures err != Some(MissingFile) ==> (err == Some(MissingXpath) <==> xpath == "")
    ensures err != Some(MissingFile) ==> (err == None <==> xpath != "")
    // on success there is something to read from
    ensures err == None ==> xpath != "" && (stdin || file != "")
  {
    file, xpath, err := "", "", None;
    stdin := !charDevice;
    if !stdin {
      if shortFile != "" {
        file := shortFile;
      }
      if longFile != "" {
        file := longFile;
      }
      if file == "" {
        err := Some(MissingFile);
        return;
      }
      if file == "-" {
        stdin := true;
      }
    }
    if shortXpath != "" {
      xpath := shortXpath;
    }
    if longXpath != "" {
      xpath := longXpath;
    }
    if xpath == "" {
      err := Some(MissingXpath);
      return;
    }
  }

  /**
   * The rows of the argument table test, as a client of the contract above
   * sees them.  For piped input the contract gives `stdin` true.
   */
  method ParseArgumentsTable()
  {
    // no arguments and no input
    var file, xpath, stdin, err := ParseArguments("", "", "", "", true);
    assert file == "" && xpath == "" && !stdin && err == Some(MissingFile);
    // only -x
    file, xpath, stdin, err := ParseArguments("", "", "", "abc", true);
    assert file == "" && xpath == "" && !stdin && err == Some(MissingFile);
    // only --xpath
    file, xpath, stdin, err := ParseArguments("", "", "abc", "", true);
    assert file == "" && xpath == "" && !stdin && err == Some(MissingFile);
    // no arguments, piped input
    file, xpath, stdin, err := ParseArguments("", "", "", "", false);
    assert file == "" && xpath == "" && stdin && err == Some(MissingXpath);
    // only -f
    file, xpath, stdin, err := ParseArguments("", "./note.xml", "", "", true);
    assert file == "./note.xml" && xpath == "" && !stdin && err == Some(MissingXpath);
    // only --file
    file, xpath, stdin, err := ParseArguments("./note.xml", "", "", "", true);
    assert file == "./note.xml" && xpath == "" && !stdin && err == Some(MissingXpath);
    // -f and -x
    file, xpath, stdin, err := ParseArguments("", "./note.xml", "", "xxx", true);
    assert file == "./note.xml" && xpath == "xxx" && !stdin && err == None;
    // -f and --xpath
    file, xpath, stdin, err := ParseArguments("", "./note.xml", "xxx", "", true);
    assert file == "./note.xml" && xpath == "xxx" && !stdin && err == None;
    // the sentinel "-"
    file, xpath, stdin, err := ParseArguments("-", "", "", "xxx", true);
    assert stdin && err == None;
  }
}
