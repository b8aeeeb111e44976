/**
 * What a run of iterations from setup does, stated by iteration number
 * instead of by counter: the counter is the iteration count modulo 201, the
 * brightness refresh fires on every 201st iteration whatever the board
 * replies were, and the buffer and brightness are those of the last
 * successful poll of each kind.
 */
module Schedule {
  import opened Colours
  import opened Board
  import opened Sketch

  /** Iterations from one brightness refresh to the next (the counter must pass 200). */
  const Period: nat := 201

  /** The endpoints of the POSTs sent in n iterations from setup. */
  function Requests(n: nat): seq<Endpoint>
  {
    if n == 0 then []
    else Requests(n - 1) + [BoardUrl] + (if n % Period == 0 then [BrightnessUrl] else [])
  }

  /** How many of the requests in p went to e. */
  function Count(p: seq<Endpoint>, e: Endpoint): nat
  {
    if p == [] then 0 else Count(p[..|p| - 1], e) + (if p[|p| - 1] == e then 1 else 0)
  }

  /** The brightness after the iterations of rs: the value of the last successful refresh, else 255. */
  function LastBrightness(rs: seq<Replies>): int
  {
    if rs == [] then InitialBrightness
    else if |rs| % Period == 0 && rs[|rs| - 1].brightnessStatus == StatusOk then rs[|rs| - 1].brightness
    else LastBrightness(rs[..|rs| - 1])
  }

  /** The buffer after the iterations of rs: the frame of the last successful board poll, else blank. */
  function LastFrame(rs: seq<Replies>): seq<Rgb>
  {
    if rs == [] then Blank()
    else if rs[|rs| - 1].boardStatus == StatusOk then Frame(rs[|rs| - 1].board)
    else LastFrame(rs[..|rs| - 1])
  }

  /** From a settled state the counter advances modulo 201, and every state reached is settled. */
  lemma {:induction false} RunCounter(s: Snapshot, rs: seq<Replies>)
    requires Settled(s)
    ensures Settled(Run(s, rs))
    ensures Run(s, rs).frameCounter == (s.frameCounter + |rs|) % Period
  {
    if rs != [] {
      var init := rs[..|rs| - 1];
      var before := Run(s, init);
      RunCounter(s, init);
      StepKeepsSettled(before, rs[|rs| - 1]);
      StepRequests(before, rs[|rs| - 1]);
      CounterStep(s.frameCounter + |init|, before.frameCounter, Run(s, rs).frameCounter);
    }
  }

  /** One more iteration moves the counter from k mod 201 to (k + 1) mod 201. */
  lemma CounterStep(k: nat, before: int, after: int)
    requires before == k % Period
    requires after == if before + 1 > RefreshAfter then 0 else before + 1
    ensures after == (k + 1) % Period
  {
    WrapsAt(k);
    var q := k / Period;
    assert k == q * Period + before;
    if before + 1 == Period {
      assert k + 1 == (q + 1) * Period;
    } else {
      assert k + 1 == q * Period + after && after < Period;
    }
  }

  /** Iteration k (counted from 0 after setup) refreshes exactly when k + 1 is a multiple of 201. */
  lemma FiresEvery201(rs: seq<Replies>, k: nat)
    requires k < |rs|
    ensures Fires(Run(Init(), rs[..k])) <==> (k + 1) % Period == 0
  {
    RunCounter(Init(), rs[..k]);
    WrapsAt(k);
  }

  /** After k iterations the counter, k mod 201, passes 200 on the next one exactly when k + 1 is a multiple of 201. */
  lemma WrapsAt(k: nat)
    ensures k % Period + 1 > RefreshAfter <==> (k + 1) % Period == 0
  {
    var q, m := k / Period, k % Period;
    assert k == q * Period + m && 0 <= m < Period;
    if m + 1 == Period {
      assert k + 1 == (q + 1) * Period;
    } else {
      assert k + 1 == q * Period + (m + 1) && m + 1 < Period;
    }
  }

  /** The board is polled at the board URL every iteration, and the brightness URL once per 201 iterations. */
  lemma {:induction false} RunRequests(rs: seq<Replies>)
    ensures Run(Init(), rs).posts == Requests(|rs|)
  {
    if rs != [] {
      var init := rs[..|rs| - 1];
      var s := Run(Init(), init);
      RunRequests(init);
      RunCounter(Init(), init);
      StepRequests(s, rs[|rs| - 1]);
      WrapsAt(|init|);
      assert Fires(s) <==> |rs| % Period == 0;
    }
  }

  /** Each iteration sends one board poll, so n iterations send n. */
  lemma {:induction false} BoardPolls(n: nat)
    ensures Count(Requests(n), BoardUrl) == n
  {
    if n > 0 {
      BoardPolls(n - 1);
      RequestsGrow(n);
    }
  }

  /** n iterations send n / 201 brightness requests: one each time the iteration count passes a multiple of 201. */
  lemma {:induction false} BrightnessRequests(n: nat)
    ensures Count(Requests(n), BrightnessUrl) == n / Period
  {
    if n > 0 {
      BrightnessRequests(n - 1);
      RequestsGrow(n);
      QuotientStep(n, Count(Requests(n - 1), BrightnessUrl), Count(Requests(n), BrightnessUrl));
    }
  }

  /** Iteration n adds one board poll, and one brightness request when n is a multiple of 201. */
  lemma RequestsGrow(n: nat)
    requires n > 0
    ensures Count(Requests(n), BoardUrl) == Count(Requests(n - 1), BoardUrl) + 1
    ensures Count(Requests(n), BrightnessUrl)
         == Count(Requests(n - 1), BrightnessUrl) + (if n % Period == 0 then 1 else 0)
  {
    var polled := Requests(n - 1) + [BoardUrl];
    assert polled[..|polled| - 1] == Requests(n - 1);
    if n % Period == 0 {
      assert Requests(n) == polled + [BrightnessUrl];
      assert Requests(n)[..|Requests(n)| - 1] == polled;
    } else {
      assert Requests(n) == polled;
    }
  }

  /** Passing a multiple of 201 adds one to the quotient; any other step leaves it. */
  lemma QuotientStep(n: nat, before: int, after: int)
    requires n > 0 && before == (n - 1) / Period
    requires after == before + (if n % Period == 0 then 1 else 0)
    ensures after == n / Period
  {
    var m := (n - 1) % Period;
    assert n == before * Period + m + 1;
    if m + 1 == Period {
      assert n == (before + 1) * Period;
    } else {
      assert n == before * Period + (m + 1) && m + 1 < Period;
    }
  }

  /** After a run from setup the brightness is that of the last refresh whose request succeeded. */
  lemma {:induction false} RunBrightness(rs: seq<Replies>)
    ensures Run(Init(), rs).brightness == LastBrightness(rs)
  {
    if rs != [] {
      var init := rs[..|rs| - 1];
      RunBrightness(init);
      RunCounter(Init(), init);
      WrapsAt(|init|);
      StepBrightness(Run(Init(), init), rs[|rs| - 1]);
    }
  }

  /** After a run from setup the buffer is the frame of the last successful board poll. */
  lemma {:induction false} RunPixels(rs: seq<Replies>)
    ensures Run(Init(), rs).pixels == LastFrame(rs)
  {
    if rs != [] {
      var init := rs[..|rs| - 1];
      RunPixels(init);
      StepPixels(Run(Init(), init), rs[|rs| - 1]);
    }
  }
}
