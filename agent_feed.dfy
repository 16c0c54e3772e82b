/**
 * The agent activity feed: a window of four action indices into a list of
 * eight agent actions. Every period the oldest row leaves at the top and the
 * action numbered by a running counter (taken modulo eight) joins at the bottom.
 */
module AgentFeed {

  /** How an action's badge reads. */
  datatype Status = Running | Alert | Complete

  /** The badges of the eight actions, in list order. */
  const ActionStatuses: seq<Status> :=
    [Running, Alert, Running, Complete, Alert, Complete, Running, Complete]

  /** The number of agent actions. */
  const ActionCount: int := 8

  /** The number of rows shown at once. */
  const WindowSize: int := 4

  /** The rotation period in milliseconds; the timer itself is outside the model. */
  const PeriodMillis: int := 2500

  /** The rows shown once the counter has reached `k + 4`: actions k, k+1, k+2 and k+3, modulo eight. */
  function Window(k: nat): (w: seq<int>)
    ensures |w| == WindowSize
    ensures forall j :: 0 <= j < |w| ==> 0 <= w[j] < ActionCount
  {
    seq(WindowSize, j requires 0 <= j < WindowSize => (k + j) % ActionCount)
  }

  /** The rows after one period: the head dropped, the counter's action appended. */
  function Rotate(w: seq<int>, next: int): (r: seq<int>)
    requires |w| >= 1
    ensures |r| == |w|
    ensures forall j :: 0 <= j < |w| - 1 ==> r[j] == w[j + 1]
    ensures 0 <= r[|r| - 1] < ActionCount && r[|r| - 1] == next % ActionCount
  {
    w[1..] + [next % ActionCount]
  }

  /** Rotating window k with counter k + 4 gives window k + 1. */
  lemma RotateWindow(k: nat)
    ensures Rotate(Window(k), k + WindowSize) == Window(k + 1)
  {
    var r, w := Rotate(Window(k), k + WindowSize), Window(k + 1);
    forall j | 0 <= j < WindowSize
      ensures r[j] == w[j]
    {
    }
  }

  /** No action is shown twice at once, and every row names an existing action. */
  lemma WindowDistinct(k: nat)
    ensures forall i, j :: 0 <= i < j < WindowSize ==> Window(k)[i] != Window(k)[j]
    ensures forall j :: 0 <= j < WindowSize ==> 0 <= Window(k)[j] < |ActionStatuses|
  {
    var w := Window(k);
    forall i, j | 0 <= i < j < WindowSize
      ensures w[i] != w[j]
    {
      DistinctResidues(k, i, j);
    }
  }

  lemma DistinctResidues(k: nat, i: int, j: int)
    requires 0 <= i < j < WindowSize
    ensures (k + i) % ActionCount != (k + j) % ActionCount
  {
  }

  /** Every eight periods the same four rows are shown again. */
  lemma WindowPeriodic(k: nat)
    ensures Window(k + ActionCount) == Window(k)
  {
    var a, b := Window(k + ActionCount), Window(k);
    forall j | 0 <= j < WindowSize
      ensures a[j] == b[j]
    {
      assert k + ActionCount + j == (k + j) + ActionCount;
    }
  }

  /** The opacity of row `i`, fading by a tenth per row. */
  function RowOpacity(i: int): (o: real)
    requires 0 <= i < WindowSize
    ensures 0.7 <= o <= 1.0
    ensures i == 0 <==> o == 1.0
  {
    1.0 - i as real * 0.1
  }

  /** Lower rows are strictly fainter. */
  lemma OpacityFades(i: int, j: int)
    requires 0 <= i < j < WindowSize
    ensures RowOpacity(j) < RowOpacity(i)
  {
  }

  /** The feed's state: the shown rows and the counter captured by the interval callback. */
  class Feed {
    var visible: seq<int>
    var nextIndex: int

    ghost predicate Valid()
      reads this
    {
      nextIndex >= WindowSize && visible == Window(nextIndex - WindowSize)
    }

    /** First render shows actions 0 to 3; the counter starts at 4. */
    constructor ()
      ensures Valid()
      ensures visible == [0, 1, 2, 3] && nextIndex == 4
    {
      visible := [0, 1, 2, 3];
      nextIndex := 4;
      new;
      assert visible == Window(0);
    }

    /** One period: the window rotates and the counter advances. */
    method Tick()
      requires Valid()
      modifies this
      ensures Valid()
      ensures visible == Rotate(old(visible), old(nextIndex))
      ensures nextIndex == old(nextIndex) + 1
    {
      RotateWindow(nextIndex - WindowSize);
      visible := visible[1..] + [nextIndex % ActionCount];
      nextIndex := nextIndex + 1;
    }

    /** `k` periods. */
    method Ticks(k: nat)
      requires Valid()
      modifies this
      ensures Valid()
      ensures nextIndex == old(nextIndex) + k
      ensures visible == Window(old(nextIndex) - WindowSize + k)
    {
      var i := 0;
      while i < k
        invariant 0 <= i <= k && Valid()
        invariant nextIndex == old(nextIndex) + i
      {
        Tick();
        i := i + 1;
      }
    }
  }

  /** After `k` periods from first render the window is actions k..k+3 modulo eight. */
  method FeedAfter(k: nat) returns (rows: seq<int>)
    ensures rows == Window(k)
    ensures |rows| == WindowSize
    ensures forall i, j :: 0 <= i < j < |rows| ==> rows[i] != rows[j]
  {
    var feed := new Feed();
    feed.Ticks(k);
    rows := feed.visible;
    WindowDistinct(k);
  }
}
