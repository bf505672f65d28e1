/** `init_check`: a class decorator whose instances are truthy exactly when
    their original `__init__` finished without raising. */
module InitCheck {

  /** How a run of the original `__init__` ended, with the instance state it
      had reached: returned normally, or raised (any exception, including
      `BaseException` subclasses) part-way. */
  datatype InitRun<S> = Returned(state: S) | Raised(state: S)

  /** An instance of a class decorated with `init_check`. `A` stands for the
      positional and keyword arguments of the construction call. */
  class InitChecked<S, A> {
    var state: S
    var initResult: bool

    /** The `__init__` that `init_check` installs: run the original once with
        the unchanged arguments, keep whatever state it reached, and record
        whether it returned. No exception escapes. */
    constructor (blank: S, args: A, origInit: (S, A) -> InitRun<S>)
      ensures state == origInit(blank, args).state
      ensures initResult <==> origInit(blank, args).Returned?
    {
      var run := origInit(blank, args);
      state := run.state;
      match run
      case Returned(_) =>
        initResult := true;
      case Raised(_) =>
        initResult := false;
    }

    /** `__bool__`: the recorded flag and nothing else. */
    method Bool() returns (b: bool)
      ensures b == initResult
    {
      b := initResult;
    }
  }

  /** Constructing an instance and testing its truthiness: the answer is
      whether the original `__init__` returned normally, and the instance
      keeps the state the original reached even when it raised. */
  method ConstructAndTest<S, A>(blank: S, args: A, origInit: (S, A) -> InitRun<S>) returns (b: bool, state: S)
    ensures b <==> origInit(blank, args).Returned?
    ensures state == origInit(blank, args).state
  {
    var obj := new InitChecked(blank, args, origInit);
    b := obj.Bool();
    state := obj.state;
  }
}
