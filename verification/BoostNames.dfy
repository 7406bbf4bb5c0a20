/** The names under which the resolver meets the table: every library by its own name, and the
    Python libraries with the suffix of the Python version in use. */
module BoostNames {
  import opened BoostTable
  import opened CMake
  import opened Options
  import opened Versions

  // ---------- Variables are named after libraries ----------

  /** The name of a library in upper case. */
  function Key(l: Library): string {
    match l
    case Atomic => "ATOMIC"
    case Chrono => "CHRONO"
    case Container => "CONTAINER"
    case Context => "CONTEXT"
    case Contract => "CONTRACT"
    case Coroutine => "COROUTINE"
    case Coroutine2 => "COROUTINE2"
    case DateTime => "DATE_TIME"
    case Fiber => "FIBER"
    case Filesystem => "FILESYSTEM"
    case Iostreams => "IOSTREAMS"
    case Json => "JSON"
    case Log => "LOG"
    case LogSetup => "LOG_SETUP"
    case Math => "MATH"
    case MathC99 => "MATH_C99"
    case MathC99f => "MATH_C99F"
    case MathC99l => "MATH_C99L"
    case MathTr1 => "MATH_TR1"
    case MathTr1f => "MATH_TR1F"
    case MathTr1l => "MATH_TR1L"
    case Mpi => "MPI"
    case MpiPython => "MPI_PYTHON"
    case Numpy => "NUMPY"
    case Python => "PYTHON"
    case Random => "RANDOM"
    case Regex => "REGEX"
    case Serialization => "SERIALIZATION"
    case System => "SYSTEM"
    case Thread => "THREAD"
    case Timer => "TIMER"
    case Wave => "WAVE"
    case Wserialization => "WSERIALIZATION"
  }

  /** The libraries that only other libraries depend on: the table has no variable for them. */
  predicate HasVariable(l: Library) {
    l !in {Container, DateTime, LogSetup, MathC99, MathC99f, MathC99l, MathTr1, MathTr1f, MathTr1l, Python,
           Serialization, System}
  }

  lemma EntryHasKey(key: string, l: Library)
    requires FindEntry(key) == Some(l)
    ensures HasVariable(l) && key == Key(l)
  {
    if l in {Atomic, Chrono, Context} {
      EntryHasKeyToContext(key, l);
    } else if l in {Contract, Coroutine, Coroutine2} {
      EntryHasKeyToCoroutine2(key, l);
    } else if l in {Fiber, Filesystem, Iostreams} {
      EntryHasKeyToIostreams(key, l);
    } else if l in {Json, Log, Math} {
      EntryHasKeyToMath(key, l);
    } else if l in {Mpi, MpiPython, Numpy} {
      EntryHasKeyToNumpy(key, l);
    } else if l in {Random, Regex, Thread} {
      EntryHasKeyToThread(key, l);
    } else {
      EntryHasKeyFromTimer(key, l);
    }
  }

  lemma EntryHasKeyToContext(key: string, l: Library)
    requires l in {Atomic, Chrono, Context}
    requires FindEntry(key) == Some(l)
    ensures HasVariable(l) && key == Key(l)
  {
  }

  lemma EntryHasKeyToCoroutine2(key: string, l: Library)
    requires l in {Contract, Coroutine, Coroutine2}
    requires FindEntry(key) == Some(l)
    ensures HasVariable(l) && key == Key(l)
  {
  }

  lemma EntryHasKeyToIostreams(key: string, l: Library)
    requires l in {Fiber, Filesystem, Iostreams}
    requires FindEntry(key) == Some(l)
    ensures HasVariable(l) && key == Key(l)
  {
  }

  lemma EntryHasKeyToMath(key: string, l: Library)
    requires l in {Json, Log, Math}
    requires FindEntry(key) == Some(l)
    ensures HasVariable(l) && key == Key(l)
  {
  }

  lemma EntryHasKeyToNumpy(key: string, l: Library)
    requires l in {Mpi, MpiPython, Numpy}
    requires FindEntry(key) == Some(l)
    ensures HasVariable(l) && key == Key(l)
  {
  }

  lemma EntryHasKeyToThread(key: string, l: Library)
    requires l in {Random, Regex, Thread}
    requires FindEntry(key) == Some(l)
    ensures HasVariable(l) && key == Key(l)
  {
  }

  lemma EntryHasKeyFromTimer(key: string, l: Library)
    requires l in {Timer, Wave, Wserialization}
    requires FindEntry(key) == Some(l)
    ensures HasVariable(l) && key == Key(l)
  {
  }

  lemma KeyFindsEntry(key: string, l: Library)
    requires key == Key(l)
    ensures FindEntry(key) == if HasVariable(l) then Some(l) else None
  {
    if l in {Atomic, Chrono, Container} {
      KeyFindsEntryToContainer(key, l);
    } else if l in {Context, Contract, Coroutine} {
      KeyFindsEntryToCoroutine(key, l);
    } else if l in {Coroutine2, DateTime, Fiber} {
      KeyFindsEntryToFiber(key, l);
    } else if l in {Filesystem, Iostreams, Json} {
      KeyFindsEntryToJson(key, l);
    } else if l in {Log, LogSetup, Math} {
      KeyFindsEntryToMath(key, l);
    } else if l in {MathC99, MathC99f, MathC99l} {
      KeyFindsEntryToMathC99l(key, l);
    } else if l in {MathTr1, MathTr1f, MathTr1l} {
      KeyFindsEntryToMathTr1l(key, l);
    } else if l in {Mpi, MpiPython, Numpy} {
      KeyFindsEntryToNumpy(key, l);
    } else if l in {Python, Random, Regex} {
      KeyFindsEntryToRegex(key, l);
    } else if l in {Serialization, System, Thread} {
      KeyFindsEntryToThread(key, l);
    } else {
      KeyFindsEntryFromTimer(key, l);
    }
  }

  lemma KeyFindsEntryToContainer(key: string, l: Library)
    requires l in {Atomic, Chrono, Container}
    requires key == Key(l)
    ensures FindEntry(key) == if HasVariable(l) then Some(l) else None
  {
  }

  lemma KeyFindsEntryToCoroutine(key: string, l: Library)
    requires l in {Context, Contract, Coroutine}
    requires key == Key(l)
    ensures FindEntry(key) == if HasVariable(l) then Some(l) else None
  {
  }

  lemma KeyFindsEntryToFiber(key: string, l: Library)
    requires l in {Coroutine2, DateTime, Fiber}
    requires key == Key(l)
    ensures FindEntry(key) == if HasVariable(l) then Some(l) else None
  {
  }

  lemma KeyFindsEntryToJson(key: string, l: Library)
    requires l in {Filesystem, Iostreams, Json}
    requires key == Key(l)
    ensures FindEntry(key) == if HasVariable(l) then Some(l) else None
  {
  }

  lemma KeyFindsEntryToMath(key: string, l: Library)
    requires l in {Log, LogSetup, Math}
    requires key == Key(l)
    ensures FindEntry(key) == if HasVariable(l) then Some(l) else None
  {
  }

  lemma KeyFindsEntryToMathC99l(key: string, l: Library)
    requires l in {MathC99, MathC99f, MathC99l}
    requires key == Key(l)
    ensures FindEntry(key) == if HasVariable(l) then Some(l) else None
  {
  }

  lemma KeyFindsEntryToMathTr1l(key: string, l: Library)
    requires l in {MathTr1, MathTr1f, MathTr1l}
    requires key == Key(l)
    ensures FindEntry(key) == if HasVariable(l) then Some(l) else None
  {
  }

  lemma KeyFindsEntryToNumpy(key: string, l: Library)
    requires l in {Mpi, MpiPython, Numpy}
    requires key == Key(l)
    ensures FindEntry(key) == if HasVariable(l) then Some(l) else None
  {
  }

  lemma KeyFindsEntryToRegex(key: string, l: Library)
    requires l in {Python, Random, Regex}
    requires key == Key(l)
    ensures FindEntry(key) == if HasVariable(l) then Some(l) else None
  {
  }

  lemma KeyFindsEntryToThread(key: string, l: Library)
    requires l in {Serialization, System, Thread}
    requires key == Key(l)
    ensures FindEntry(key) == if HasVariable(l) then Some(l) else None
  {
  }

  lemma KeyFindsEntryFromTimer(key: string, l: Library)
    requires l in {Timer, Wave, Wserialization}
    requires key == Key(l)
    ensures FindEntry(key) == if HasVariable(l) then Some(l) else None
  {
  }

  /** `key` is `name` in upper case, letter by letter. */
  ghost predicate IsUpperCaseOf(key: string, name: string) {
    |name| == |key| && forall i :: 0 <= i < |key| ==> UpperChar(name[i]) == key[i]
  }

  lemma KeyIsUpperCase(l: Library)
    ensures IsUpperCaseOf(Key(l), Name(l))
  {
    if l in {Atomic, Chrono, Container} {
      KeyIsUpperCaseToContainer(l);
    } else if l in {Context, Contract, Coroutine} {
      KeyIsUpperCaseToCoroutine(l);
    } else if l in {Coroutine2, DateTime, Fiber} {
      KeyIsUpperCaseToFiber(l);
    } else if l in {Filesystem, Iostreams, Json} {
      KeyIsUpperCaseToJson(l);
    } else if l in {Log, LogSetup, Math} {
      KeyIsUpperCaseToMath(l);
    } else if l in {MathC99, MathC99f, MathC99l} {
      KeyIsUpperCaseToMathC99l(l);
    } else if l in {MathTr1, MathTr1f, MathTr1l} {
      KeyIsUpperCaseToMathTr1l(l);
    } else if l in {Mpi, MpiPython, Numpy} {
      KeyIsUpperCaseToNumpy(l);
    } else if l in {Python, Random, Regex} {
      KeyIsUpperCaseToRegex(l);
    } else if l in {Serialization, System, Thread} {
      KeyIsUpperCaseToThread(l);
    } else {
      KeyIsUpperCaseFromTimer(l);
    }
  }

  lemma KeyIsUpperCaseToContainer(l: Library)
    requires l in {Atomic, Chrono, Container}
    ensures IsUpperCaseOf(Key(l), Name(l))
  {
  }

  lemma KeyIsUpperCaseToCoroutine(l: Library)
    requires l in {Context, Contract, Coroutine}
    ensures IsUpperCaseOf(Key(l), Name(l))
  {
  }

  lemma KeyIsUpperCaseToFiber(l: Library)
    requires l in {Coroutine2, DateTime, Fiber}
    ensures IsUpperCaseOf(Key(l), Name(l))
  {
  }

  lemma KeyIsUpperCaseToJson(l: Library)
    requires l in {Filesystem, Iostreams, Json}
    ensures IsUpperCaseOf(Key(l), Name(l))
  {
  }

  lemma KeyIsUpperCaseToMath(l: Library)
    requires l in {Log, LogSetup, Math}
    ensures IsUpperCaseOf(Key(l), Name(l))
  {
  }

  lemma KeyIsUpperCaseToMathC99l(l: Library)
    requires l in {MathC99, MathC99f, MathC99l}
    ensures IsUpperCaseOf(Key(l), Name(l))
  {
  }

  lemma KeyIsUpperCaseToMathTr1l(l: Library)
    requires l in {MathTr1, MathTr1f, MathTr1l}
    ensures IsUpperCaseOf(Key(l), Name(l))
  {
  }

  lemma KeyIsUpperCaseToNumpy(l: Library)
    requires l in {Mpi, MpiPython, Numpy}
    ensures IsUpperCaseOf(Key(l), Name(l))
  {
  }

  lemma KeyIsUpperCaseToRegex(l: Library)
    requires l in {Python, Random, Regex}
    ensures IsUpperCaseOf(Key(l), Name(l))
  {
  }

  lemma KeyIsUpperCaseToThread(l: Library)
    requires l in {Serialization, System, Thread}
    ensures IsUpperCaseOf(Key(l), Name(l))
  {
  }

  lemma KeyIsUpperCaseFromTimer(l: Library)
    requires l in {Timer, Wave, Wserialization}
    ensures IsUpperCaseOf(Key(l), Name(l))
  {
  }

  /** The variable that is read belongs to the library whose name, in upper case, it carries. */
  lemma EntryHasName(key: string, l: Library)
    requires FindEntry(key) == Some(l)
    ensures Upper(Name(l)) == key
  {
    EntryHasKey(key, l);
    KeyIsUpperCase(l);
    UpperIs(Name(l), key);
  }

  // ---------- Suffixed Python libraries ----------

  /** A suffix is one digit, two digits, or a digit, a dot and at least one digit. */
  lemma PythonSuffixForms(s: string)
    ensures IsPythonSuffix(s) <==>
      && s != "" && IsDigit(s[0])
      && (|s| == 1 || (|s| == 2 && IsDigit(s[1])) || exists minor :: IsNumber(minor) && s == [s[0]] + "." + minor)
  {
    if |s| >= 3 && s[1] == '.' {
      assert s == [s[0]] + "." + s[2..];
    }
  }

  /** A library name and the suffix behind it are read apart again. */
  lemma SuffixIsSplitOff(base: string, suffix: string)
    requires base in PYTHON_LIBRARIES && (suffix == "" || IsPythonSuffix(suffix))
    ensures SplitPython(base + suffix) == (base, suffix)
  {
    var c := base + suffix;
    assert c[|base|..] == suffix && c[..|base|] == base;
    if suffix == "" {
      assert c == base;
      NothingToSplit(base);
    }
  }

  lemma NothingToSplit(base: string)
    requires base in PYTHON_LIBRARIES
    ensures SplitPython(base) == (base, "")
  {
    OnePythonLibrary(base);
    var r := SplitPython(base);
    assert r.0 <= base;
  }

  lemma PythonEntries(mpi: string, numpy: string, python: string)
    requires mpi == "MPI_PYTHON" && numpy == "NUMPY" && python == "PYTHON"
    ensures FindEntry(mpi) == Some(MpiPython) && FindEntry(numpy) == Some(Numpy) && FindEntry(python) == None
  {
  }

  lemma EntryTexts(since: nat, c: string, base: string, suffix: string, l: Library)
    requires SplitPython(c) == (base, suffix) && FindEntry(Upper(base)) == Some(l)
    ensures BoostGraph(since)(c) == Texts(Entry(l, since), suffix)
  {
  }

  lemma MpiPythonTexts(since: nat, suffix: string)
    ensures Texts(Entry(MpiPython, since), suffix)
         == if since >= 35 then ["python" + suffix, "mpi", "serialization"] else []
  {
  }

  lemma NumpyTexts(since: nat, suffix: string)
    ensures Texts(Entry(Numpy, since), suffix) == if since >= 65 then ["python" + suffix] else []
  {
  }

  lemma Suffixed(since: nat, c: string, base: string, key: string, suffix: string, l: Library)
    requires base in PYTHON_LIBRARIES && (suffix == "" || IsPythonSuffix(suffix)) && c == base + suffix
    requires IsUpperCaseOf(key, base) && FindEntry(key) == Some(l)
    ensures BoostGraph(since)(c) == Texts(Entry(l, since), suffix)
  {
    UpperIs(base, key);
    SuffixIsSplitOff(base, suffix);
    EntryTexts(since, c, base, suffix, l);
  }

  lemma MpiPythonDependencies(since: nat, c: string, suffix: string)
    requires (suffix == "" || IsPythonSuffix(suffix)) && c == "mpi_python" + suffix
    ensures BoostGraph(since)(c) == if since >= 35 then ["python" + suffix, "mpi", "serialization"] else []
  {
    var base, key := "mpi_python", "MPI_PYTHON";
    PythonEntries(key, "NUMPY", "PYTHON");
    Suffixed(since, c, base, key, suffix, MpiPython);
    MpiPythonTexts(since, suffix);
  }

  lemma NumpyDependencies(since: nat, c: string, suffix: string)
    requires (suffix == "" || IsPythonSuffix(suffix)) && c == "numpy" + suffix
    ensures BoostGraph(since)(c) == if since >= 65 then ["python" + suffix] else []
  {
    var base, key := "numpy", "NUMPY";
    PythonEntries("MPI_PYTHON", key, "PYTHON");
    Suffixed(since, c, base, key, suffix, Numpy);
    NumpyTexts(since, suffix);
  }

  /** The Python bindings depend on the Python library of the same suffix, from the releases on that
      brought them. */
  lemma SuffixedDependencies(since: nat, suffix: string)
    requires suffix == "" || IsPythonSuffix(suffix)
    ensures BoostGraph(since)("mpi_python" + suffix)
         == if since >= 35 then ["python" + suffix, "mpi", "serialization"] else []
    ensures BoostGraph(since)("numpy" + suffix) == if since >= 65 then ["python" + suffix] else []
  {
    MpiPythonDependencies(since, "mpi_python" + suffix, suffix);
    NumpyDependencies(since, "numpy" + suffix, suffix);
  }

  // ---------- Every library by its own name ----------

  /** A text that does not begin like a Python library. */
  predicate UnlikePython(s: string) {
    s != "" && s[0] != 'p' && s[0] != 'n' && (s[0] == 'm' ==> |s| < |"mpi_python"|)
  }

  lemma NamesUnlikePython(l: Library)
    requires l !in {MpiPython, Numpy, Python}
    ensures UnlikePython(Name(l))
  {
  }

  lemma UnlikePythonIsWhole(s: string)
    requires UnlikePython(s)
    ensures SplitPython(s) == (s, "")
  {
    assert "python"[0] == 'p' && "mpi_python"[0] == 'm' && "numpy"[0] == 'n';
    assert !("python" <= s) && !("mpi_python" <= s) && !("numpy" <= s);
  }

  lemma NameIsWhole(l: Library)
    ensures SplitPython(Name(l)) == (Name(l), "")
  {
    if l in {MpiPython, Numpy, Python} {
      NothingToSplit(Name(l));
    } else {
      NamesUnlikePython(l);
      UnlikePythonIsWhole(Name(l));
    }
  }

  lemma NoVariableNoDependencies(l: Library, since: nat)
    requires !HasVariable(l)
    ensures Entry(l, since) == []
  {
  }

  lemma TextWithoutSuffix(l: Library)
    ensures Text(l, "") == Name(l)
  {
    assert "python" + "" == "python";
  }

  /** Under its own name every library has the dependencies of the table, in order and by their
      names. */
  lemma NamedDependencies(since: nat, l: Library)
    ensures |BoostGraph(since)(Name(l))| == |Entry(l, since)|
    ensures forall i :: 0 <= i < |Entry(l, since)| ==> BoostGraph(since)(Name(l))[i] == Name(Entry(l, since)[i])
  {
    NameIsWhole(l);
    KeyIsUpperCase(l);
    UpperIs(Name(l), Key(l));
    KeyFindsEntry(Key(l), l);
    if HasVariable(l) {
      EntryTexts(since, Name(l), Name(l), "", l);
      NamesOfTexts(Entry(l, since));
    } else {
      NoVariableNoDependencies(l, since);
    }
  }

  lemma NamesOfTexts(ls: seq<Library>)
    ensures |Texts(ls, "")| == |ls| && forall i :: 0 <= i < |ls| ==> Texts(ls, "")[i] == Name(ls[i])
  {
    forall i | 0 <= i < |ls|
      ensures Texts(ls, "")[i] == Name(ls[i])
    {
      TextWithoutSuffix(ls[i]);
    }
  }

  // ---------- Libraries that have no entry of their own ----------

  lemma ContainerName(since: nat)
    requires since >= 75
    ensures Texts(Entry(Json, since), "") == ["container"]
  {
  }

  lemma SystemName(since: nat)
    requires 35 <= since < 69
    ensures Texts(Entry(Filesystem, since), "") == ["system"]
  {
  }

  lemma DateTimeName(since: nat)
    requires 38 <= since < 50
    ensures Texts(Entry(Thread, since), "") == ["date_time"]
  {
  }

  lemma LogSetupName(since: nat)
    requires since >= 87
    ensures Texts(Entry(Log, since), "") == ["log_setup", "filesystem", "thread", "regex", "atomic"]
  {
  }

  lemma MathNames(since: nat)
    requires since >= 77
    ensures Texts(Entry(Math, since), "")
         == ["math_c99", "math_c99f", "math_c99l", "math_tr1", "math_tr1f", "math_tr1l"]
  {
  }
}
