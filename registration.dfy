/** The registration side: `Context` with its `describe`, `it` and `before`.
    A closure is modelled by what invoking it does, and the body passed to
    `describe` by the registration calls it makes, in order. */
module Registration {

  /** A test closure (`FnMut() -> TestResult`): invoking it returns `Ok(())`,
      returns `Err(())`, or panics. */
  datatype TestFn = Pass | Fail | Panic

  /** A before-each closure (`FnMut()`): invoking it returns or panics. */
  datatype HookFn = Returns | Panics

  /** One call a describe body makes on the context it is given. */
  datatype Step =
    | It(test: TestFn)
    | Before(hook: HookFn)
    | Describe(body: seq<Step>)

  /** The tests a body registers, at every nesting depth, in the order of the calls. */
  function Tests(body: seq<Step>): seq<TestFn>
    decreases body
  {
    if body == [] then [] else Tests(body[..|body| - 1]) + StepTests(body[|body| - 1])
  }

  /** The tests one call registers. */
  function StepTests(step: Step): seq<TestFn>
    decreases step
  {
    match step
    case It(t) => [t]
    case Before(_) => []
    case Describe(b) => Tests(b)
  }

  /** The before-each hooks a body registers, at every nesting depth, in the order of the calls. */
  function Hooks(body: seq<Step>): seq<HookFn>
    decreases body
  {
    if body == [] then [] else Hooks(body[..|body| - 1]) + StepHooks(body[|body| - 1])
  }

  /** The before-each hooks one call registers. */
  function StepHooks(step: Step): seq<HookFn>
    decreases step
  {
    match step
    case It(_) => []
    case Before(h) => [h]
    case Describe(b) => Hooks(b)
  }

  /** Running two bodies one after the other registers the tests of each, in that order. */
  lemma {:induction false} TestsAppend(a: seq<Step>, b: seq<Step>)
    ensures Tests(a + b) == Tests(a) + Tests(b)
    decreases |b|
  {
    if b == [] {
      assert a + b == a;
    } else {
      var b', last := b[..|b| - 1], b[|b| - 1];
      TestsAppend(a, b');
      calc {
        Tests(a + b);
        { assert (a + b)[..|a + b| - 1] == a + b' && (a + b)[|a + b| - 1] == last; }
        Tests(a + b') + StepTests(last);
        Tests(a) + Tests(b') + StepTests(last);
        Tests(a) + Tests(b);
      }
    }
  }

  /** Running two bodies one after the other registers the hooks of each, in that order. */
  lemma {:induction false} HooksAppend(a: seq<Step>, b: seq<Step>)
    ensures Hooks(a + b) == Hooks(a) + Hooks(b)
    decreases |b|
  {
    if b == [] {
      assert a + b == a;
    } else {
      var b', last := b[..|b| - 1], b[|b| - 1];
      HooksAppend(a, b');
      calc {
        Hooks(a + b);
        { assert (a + b)[..|a + b| - 1] == a + b' && (a + b)[|a + b| - 1] == last; }
        Hooks(a + b') + StepHooks(last);
        Hooks(a) + Hooks(b') + StepHooks(last);
        Hooks(a) + Hooks(b);
      }
    }
  }

  /** A body that only calls `it`, once per test in `tests`. */
  function Its(tests: seq<TestFn>): (body: seq<Step>)
    ensures |body| == |tests|
  {
    if tests == [] then [] else Its(tests[..|tests| - 1]) + [It(tests[|tests| - 1])]
  }

  /** Calling `it` once per test registers those tests, in that order, and no hook. */
  lemma {:induction false} ItsRegister(tests: seq<TestFn>)
    ensures Tests(Its(tests)) == tests
    ensures Hooks(Its(tests)) == []
  {
    if tests != [] {
      var init := tests[..|tests| - 1];
      ItsRegister(init);
      TestsAppend(Its(init), [It(tests[|tests| - 1])]);
      HooksAppend(Its(init), [It(tests[|tests| - 1])]);
      assert [It(tests[|tests| - 1])][..0] == [];
      assert init + [tests[|tests| - 1]] == tests;
    }
  }

  /** A nested `describe` is transparent: replacing it by the calls of its
      body registers exactly the same tests and hooks, so grouping creates no
      scope of its own and every test and hook lands in one flat list. */
  lemma DescribeIsTransparent(before: seq<Step>, body: seq<Step>, after: seq<Step>)
    ensures Tests(before + [Describe(body)] + after) == Tests(before + body + after)
    ensures Hooks(before + [Describe(body)] + after) == Hooks(before + body + after)
  {
    TestsAppend(before + [Describe(body)], after);
    TestsAppend(before, [Describe(body)]);
    TestsAppend(before + body, after);
    TestsAppend(before, body);
    HooksAppend(before + [Describe(body)], after);
    HooksAppend(before, [Describe(body)]);
    HooksAppend(before + body, after);
    HooksAppend(before, body);
    assert [Describe(body)][..0] == [];
  }

  /** The registration context: the tests and the before-each hooks, each in
      the order they were registered. */
  class Context {
    var tests: seq<TestFn>
    var beforeEach: seq<HookFn>

    /** `Context { tests: vec!(), before_each: vec!() }` */
    constructor ()
      ensures tests == [] && beforeEach == []
    {
      tests := [];
      beforeEach := [];
    }

    /** Hands this same context to `body`, which makes its calls on it in order. */
    method Describe(body: seq<Step>)
      modifies this
      ensures tests == old(tests) + Tests(body)
      ensures beforeEach == old(beforeEach) + Hooks(body)
      decreases body
    {
      for i := 0 to |body|
        invariant tests == old(tests) + Tests(body[..i])
        invariant beforeEach == old(beforeEach) + Hooks(body[..i])
      {
        assert body[..i + 1][..i] == body[..i];
        match body[i]
        case It(t) => It(t);
        case Before(h) => Before(h);
        case Describe(b) => Describe(b);
      }
      assert body[..|body|] == body;
    }

    /** Appends one test after the ones already registered. */
    method It(test: TestFn)
      modifies this
      ensures tests == old(tests) + [test]
      ensures beforeEach == old(beforeEach)
    {
      tests := tests + [test];
    }

    /** Appends one before-each hook after the ones already registered. */
    method Before(hook: HookFn)
      modifies this
      ensures beforeEach == old(beforeEach) + [hook]
      ensures tests == old(tests)
    {
      beforeEach := beforeEach + [hook];
    }
  }
}
