/** The management-command framework every command is built on: required-option
    validation, copying the options onto the command, verbosity parsing, the
    verbosity-gated printers, the confirmation gate, the conversion of an escaping
    exception into exit status 1, and the stdout wrapper that drops blank writes. */
module Base {
  import opened Py

  /** How a printed line is decorated (the colour codes themselves are not modelled). */
  datatype Style = Plain | Info | Success | Warning | Failure

  datatype Line = Line(style: Style, text: string)

  /** How a step of a command ended: normally, through `sys.exit(code)`, or by raising. */
  datatype Outcome = Completed | Exited(code: int) | Raised(error: Error)

  // ---------------------------------------------------------------------------
  // DummyTqdmFile

  /** `DummyTqdmFile.write` passes `x` on exactly when `x.rstrip()` is not empty. */
  predicate Forwards(x: string) {
    |RStrip(x)| > 0
  }

  /** A write is passed on exactly when it holds a character that is not whitespace. */
  lemma ForwardsIffVisible(x: string)
    ensures Forwards(x) <==> exists i :: 0 <= i < |x| && !IsSpace(x[i])
  {
    RStripEmptyIffBlank(x);
  }

  /** The stand-in for stdout while a progress bar is drawn; `written` is what reached
      `tqdm.write` for the wrapped file. */
  class DummyTqdmFile {
    var written: seq<string>

    constructor ()
      ensures written == []
    {
      written := [];
    }

    method Write(x: string)
      modifies this
      ensures written == if Forwards(x) then old(written) + [x] else old(written)
    {
      if |RStrip(x)| > 0 {
        written := written + [x];
      }
    }
  }

  // ---------------------------------------------------------------------------
  // Options

  /** `options.get(name) is not None`. */
  predicate IsSet(options: Entries, name: string) {
    Get(options, name).Some? && !Get(options, name).value.Null?
  }

  /** The first required option that is absent or None, if any. */
  function MissingRequired(required: seq<string>, options: Entries): (r: Option<string>)
    ensures r.None? <==> forall j :: 0 <= j < |required| ==> IsSet(options, required[j])
    ensures r.Some? ==> exists j :: 0 <= j < |required| && required[j] == r.value
                                    && !IsSet(options, r.value)
                                    && forall t :: 0 <= t < j ==> IsSet(options, required[t])
  {
    if required == [] then None
    else if !IsSet(options, required[0]) then Some(required[0])
    else
      var r := MissingRequired(required[1..], options);
      if r.Some? then
        var j :| 0 <= j < |required[1..]| && required[1..][j] == r.value && !IsSet(options, r.value)
                 && forall t :: 0 <= t < j ==> IsSet(options, required[1..][t]);
        assert required[j + 1] == r.value;
        assert forall t :: 0 <= t < j + 1 ==> IsSet(options, required[t]) by {
          forall t | 0 <= t < j + 1 ensures IsSet(options, required[t]) {
            if t > 0 { assert required[t] == required[1..][t - 1]; }
          }
        }
        r
      else
        assert forall j :: 0 <= j < |required| ==> IsSet(options, required[j]) by {
          forall j | 0 <= j < |required| ensures IsSet(options, required[j]) {
            if j > 0 { assert required[j] == required[1..][j - 1]; }
          }
        }
        r
  }

  /** The error printed for a required option that is missing or None. */
  function RequiredMessage(name: string): string {
    name + " is required (use -h for help)."
  }

  /** The attributes after `setattr(self, key, value)` for every option, in order. */
  function WithOptions(attrs: map<string, Value>, options: Entries): (r: map<string, Value>)
    decreases |options|
  {
    if options == [] then attrs
    else WithOptions(attrs[options[0].0 := options[0].1], options[1..])
  }

  /** After the copy every option is an attribute holding the option's value, and every
      other attribute is as it was. */
  lemma {:induction false} WithOptionsGet(attrs: map<string, Value>, options: Entries, k: string)
    requires DistinctKeys(options)
    ensures Get(options, k).Some? ==>
              k in WithOptions(attrs, options) && WithOptions(attrs, options)[k] == Get(options, k).value
    ensures Get(options, k).None? ==> (k in WithOptions(attrs, options) <==> k in attrs)
    ensures Get(options, k).None? && k in attrs ==> WithOptions(attrs, options)[k] == attrs[k]
    decreases |options|
  {
    if options != [] {
      var rest := options[1..];
      assert DistinctKeys(rest) by {
        forall a, b | 0 <= a < b < |rest| ensures rest[a].0 != rest[b].0 {
          assert rest[a] == options[a + 1] && rest[b] == options[b + 1];
        }
      }
      WithOptionsGet(attrs[options[0].0 := options[0].1], rest, k);
    }
  }

  /** `int(v)` with a ValueError answered by 1; a TypeError still escapes. */
  function VerbosityOf(v: Value): (r: Result<int>)
    ensures v.Int? ==> r == Ok(v.i)
    ensures v.Str? && ParseInt(v.s).Err? ==> r == Ok(1)
    ensures r.Err? <==> ToInt(v) == Err(TypeError)
    ensures r.Err? ==> r.error == TypeError
    ensures r.Ok? && ToInt(v).Ok? ==> r.value == ToInt(v).value
  {
    match ToInt(v)
    case Ok(n) => Ok(n)
    case Err(e) => if e == ValueError then Ok(1) else Err(e)
  }

  /** The index `es_create_documents` and `es_rebuild_index` write to:
      `self.target_name or self.index_name`. */
  function TargetOf(attrs: map<string, Value>): (v: Value)
    requires "index_name" in attrs && "target_name" in attrs
    ensures Truthy(attrs["target_name"]) ==> v == attrs["target_name"]
    ensures !Truthy(attrs["target_name"]) ==> v == attrs["index_name"]
  {
    if Truthy(attrs["target_name"]) then attrs["target_name"] else attrs["index_name"]
  }

  /** An exception's `repr`, reduced to the exception's class name. */
  function Repr(e: Error): string {
    match e
    case TypeError => "TypeError()"
    case ValueError => "ValueError()"
    case KeyError => "KeyError()"
    case IndexError => "IndexError()"
    case AttributeError => "AttributeError()"
    case ImportError => "ImportError()"
    case DoesNotExist => "DoesNotExist()"
    case NotFoundError => "NotFoundError()"
    case AlreadyExistsError => "RequestError()"
    case RuntimeError(m) => "RuntimeError('" + m + "')"
  }

  // ---------------------------------------------------------------------------
  // The command

  /** `ESBaseCommand`: its attributes (the options once copied), the parsed verbosity and
      what it printed on stdout and stderr. */
  class Command {
    const requiredOptions: seq<string>
    var attrs: map<string, Value>
    var verbosity: int
    var out: seq<Line>
    var err: seq<Line>

    constructor (requiredOptions: seq<string>, attrs: map<string, Value>)
      ensures this.requiredOptions == requiredOptions && this.attrs == attrs
      ensures out == [] && err == []
    {
      this.requiredOptions := requiredOptions;
      this.attrs := attrs;
      out := [];
      err := [];
    }

    /** Whether a message at `level` is shown. */
    predicate Shows(level: int)
      reads this
    {
      verbosity >= level
    }

    /** `print_normal`, `print_info` and `print_success`: shown only when the verbosity
        reaches `level`. */
    method PrintAt(style: Style, message: string, level: int)
      modifies this`out
      ensures out == if Shows(level) then old(out) + [Line(style, message)] else old(out)
    {
      if verbosity >= level {
        out := out + [Line(style, message)];
      }
    }

    /** `print_error`: always shown, on stderr. */
    method PrintError(message: string)
      modifies this`err
      ensures err == old(err) + [Line(Failure, message)]
    {
      err := err + [Line(Failure, message)];
    }

    /** `print_warning`: always shown. */
    method PrintWarning(message: string)
      modifies this`out
      ensures out == old(out) + [Line(Warning, message)]
    {
      out := out + [Line(Warning, message)];
    }

    /** `parse_options(**options)`: stop with status 1 at the first required option that
        is absent or None; otherwise copy every option onto the command and parse the
        verbosity, falling back to 1 when it is not an integer string. */
    method ParseOptions(options: Entries) returns (o: Outcome)
      modifies this`attrs, this`verbosity, this`err
      ensures var missing := MissingRequired(requiredOptions, options);
              && (missing.Some? ==>
                    o == Exited(1) && attrs == old(attrs) && verbosity == old(verbosity)
                    && err == old(err) + [Line(Failure, RequiredMessage(missing.value))])
              && (missing.None? ==>
                    var a := WithOptions(old(attrs), options);
                    && err == old(err)
                    && ("verbosity" !in a ==> o == Raised(AttributeError) && attrs == a && verbosity == old(verbosity))
                    && ("verbosity" in a && VerbosityOf(a["verbosity"]).Err? ==>
                          o == Raised(VerbosityOf(a["verbosity"]).error) && attrs == a && verbosity == old(verbosity))
                    && ("verbosity" in a && VerbosityOf(a["verbosity"]).Ok? ==>
                          var n := VerbosityOf(a["verbosity"]).value;
                          o == Completed && verbosity == n && attrs == a["verbosity" := Int(n)]))
    {
      var i := 0;
      while i < |requiredOptions|
        invariant 0 <= i <= |requiredOptions|
        invariant MissingRequired(requiredOptions, options) == MissingRequired(requiredOptions[i..], options)
        invariant attrs == old(attrs) && verbosity == old(verbosity) && err == old(err)
      {
        assert requiredOptions[i..][1..] == requiredOptions[i + 1..];
        if !IsSet(options, requiredOptions[i]) {
          PrintError(RequiredMessage(requiredOptions[i]));
          return Exited(1);
        }
        i := i + 1;
      }
      assert requiredOptions[i..] == [];
      var j := 0;
      while j < |options|
        invariant 0 <= j <= |options|
        invariant WithOptions(old(attrs), options) == WithOptions(attrs, options[j..])
        invariant verbosity == old(verbosity) && err == old(err)
      {
        assert options[j..][1..] == options[j + 1..];
        var (key, value) := options[j];
        attrs := attrs[key := value];
        j := j + 1;
      }
      assert options[j..] == [];
      if "verbosity" !in attrs {
        return Raised(AttributeError);
      }
      var v := ToInt(attrs["verbosity"]);
      if v.Err? && v.error != ValueError {
        return Raised(v.error);
      }
      verbosity := if v.Ok? then v.value else 1;
      attrs := attrs["verbosity" := Int(verbosity)];
      return Completed;
    }

    /** `confirm(message)`: True at once when `yes` is set; otherwise ask, and stop with
        status 1 on any answer other than exactly "Y" (after which it returns None). */
    method Confirm(message: string, answer: string) returns (o: Outcome, returned: Value)
      modifies this`out, this`err
      ensures "yes" !in attrs ==> o == Raised(AttributeError) && out == old(out) && err == old(err)
      ensures "yes" in attrs && Truthy(attrs["yes"]) ==>
                o == Completed && returned == Bool(true) && out == old(out) && err == old(err)
      ensures "yes" in attrs && !Truthy(attrs["yes"]) ==>
                && out == old(out) + [Line(Warning, message + " [Y/n]")]
                && (answer == "Y" ==> o == Completed && returned == Null && err == old(err))
                && (answer != "Y" ==> o == Exited(1) && err == old(err) + [Line(Failure, "Operation canceled.")])
    {
      returned := Null;
      if "yes" !in attrs {
        return Raised(AttributeError), returned;
      }
      if Truthy(attrs["yes"]) {
        return Completed, Bool(true);
      }
      PrintWarning(message + " [Y/n]");
      if answer != "Y" {
        PrintError("Operation canceled.");
        return Exited(1), returned;
      }
      o := Completed;
    }

    /** The `except Exception` of `handle`: an exception from `parse_options` or `run` is
        printed and becomes exit status 1; an exit or a normal end passes through. */
    method Conclude(o: Outcome) returns (r: Outcome)
      modifies this`err
      ensures !r.Raised?
      ensures o.Raised? ==> r == Exited(1) && err == old(err) + [Line(Failure, Repr(o.error))]
      ensures !o.Raised? ==> r == o && err == old(err)
    {
      if o.Raised? {
        PrintError(Repr(o.error));
        return Exited(1);
      }
      return o;
    }
  }

  /** A verbosity string that `int()` refuses falls back to 1. */
  lemma NonIntegerVerbosity(s: string)
    requires ParseInt(s).Err?
    ensures VerbosityOf(Str(s)) == Ok(1)
  {
  }

  /** The `'notint'` verbosity the command tests pass is such a string. */
  lemma NotIntVerbosity()
    ensures ParseInt("notint") == Err(ValueError)
    ensures VerbosityOf(Str("notint")) == Ok(1)
  {
    var s := "notint";
    assert !IsSpace(s[0]) && !IsSpace(s[|s| - 1]);
    assert RStrip(s) == s;
    assert Strip(s) == s;
    assert !IsDigit(s[0]);
    NonIntegerVerbosity(s);
  }
}
