/**
 * The document title: the screen's name, preceded, when some alarm is
 * active, by the active alarms' times in ascending order, joined by " ~ "
 * and put in parentheses.
 */
module Title {
  import opened Types

  function ViewTitle(v: View): string
  {
    match v
    case Dashboard => "In\U{00ED}cio"
    case Alarms => "Alarmes"
    case Pomodoro => "Pomodoro"
    case Temporizador => "Timer"
    case Stopwatch => "Cron\U{00F4}metro"
  }

  const AppSuffix := " | DespertaFoco"

  /** Lexicographic order on strings, character by character, a proper prefix first. */
  predicate LexLe(a: string, b: string)
    decreases |a|
  {
    if a == [] then true
    else if b == [] then false
    else if a[0] != b[0] then a[0] < b[0]
    else LexLe(a[1..], b[1..])
  }

  lemma {:induction false} LexLeTotal(a: string, b: string)
    ensures LexLe(a, b) || LexLe(b, a)
    decreases |a|
  {
    if a != [] && b != [] && a[0] == b[0] {
      LexLeTotal(a[1..], b[1..]);
    }
  }

  /** Two strings each at most the other are equal, so a sorted permutation is unique. */
  lemma {:induction false} LexLeAntisymmetric(a: string, b: string)
    requires LexLe(a, b) && LexLe(b, a)
    ensures a == b
    decreases |a|
  {
    if a != [] && b != [] {
      LexLeAntisymmetric(a[1..], b[1..]);
      assert a == [a[0]] + a[1..] && b == [b[0]] + b[1..];
    }
  }

  lemma {:induction false} LexLeTransitive(a: string, b: string, c: string)
    requires LexLe(a, b) && LexLe(b, c)
    ensures LexLe(a, c)
    decreases |a|
  {
    if a != [] && b != [] && c != [] && a[0] == b[0] && b[0] == c[0] {
      LexLeTransitive(a[1..], b[1..], c[1..]);
    }
  }

  predicate Sorted(s: seq<string>)
  {
    forall i, j :: 0 <= i < j < |s| ==> LexLe(s[i], s[j])
  }

  function Insert(x: string, s: seq<string>): (r: seq<string>)
    ensures multiset(r) == multiset(s) + multiset{x}
    decreases |s|
  {
    if s == [] then [x]
    else if LexLe(x, s[0]) then [x] + s
    else
      assert s == [s[0]] + s[1..];
      [s[0]] + Insert(x, s[1..])
  }

  /** A lower bound of `x` and of every element of `s` bounds every element after inserting. */
  lemma {:induction false} InsertLowerBound(y: string, x: string, s: seq<string>)
    requires LexLe(y, x) && forall k :: 0 <= k < |s| ==> LexLe(y, s[k])
    ensures forall k :: 0 <= k < |Insert(x, s)| ==> LexLe(y, Insert(x, s)[k])
    decreases |s|
  {
    if s == [] {
      assert Insert(x, s) == [x];
    } else if LexLe(x, s[0]) {
      ConsLowerBound(y, x, s);
    } else {
      InsertLowerBound(y, x, s[1..]);
      ConsLowerBound(y, s[0], Insert(x, s[1..]));
    }
  }

  lemma ConsLowerBound(y: string, a: string, t: seq<string>)
    requires LexLe(y, a) && forall k :: 0 <= k < |t| ==> LexLe(y, t[k])
    ensures forall k :: 0 <= k < |[a] + t| ==> LexLe(y, ([a] + t)[k])
  {
    forall k | 0 < k < |t| + 1 ensures LexLe(y, ([a] + t)[k]) {
      assert ([a] + t)[k] == t[k - 1];
    }
  }

  lemma {:induction false} InsertSorted(x: string, s: seq<string>)
    requires Sorted(s)
    ensures Sorted(Insert(x, s))
    decreases |s|
  {
    if s == [] {
    } else if LexLe(x, s[0]) {
      var r := [x] + s;
      forall i, j | 0 <= i < j < |r| ensures LexLe(r[i], r[j]) {
        if i == 0 && j > 1 {
          LexLeTransitive(x, s[0], s[j - 1]);
        }
      }
    } else {
      LexLeTotal(x, s[0]);
      InsertSorted(x, s[1..]);
      var rest := Insert(x, s[1..]);
      InsertLowerBound(s[0], x, s[1..]);
      var r := [s[0]] + rest;
      forall i, j | 0 <= i < j < |r| ensures LexLe(r[i], r[j]) {
        if i > 0 {
          assert r[i] == rest[i - 1] && r[j] == rest[j - 1];
        }
      }
    }
  }

  /** The times in ascending order (insertion sort). */
  function Sort(s: seq<string>): seq<string>
    decreases |s|
  {
    if s == [] then [] else Insert(s[0], Sort(s[1..]))
  }

  /** Sort keeps every time, duplicates included, and adds none. */
  lemma {:induction false} SortPermutes(s: seq<string>)
    ensures multiset(Sort(s)) == multiset(s)
    decreases |s|
  {
    if s != [] {
      SortPermutes(s[1..]);
      assert Sort(s) == Insert(s[0], Sort(s[1..]));
      assert multiset(s) == multiset{s[0]} + multiset(s[1..]) by {
        assert s == [s[0]] + s[1..];
      }
    }
  }

  /** Sort puts the times in ascending order. */
  lemma {:induction false} SortSorted(s: seq<string>)
    ensures Sorted(Sort(s))
    decreases |s|
  {
    if s != [] {
      SortSorted(s[1..]);
      InsertSorted(s[0], Sort(s[1..]));
    }
  }

  /** Sort puts the times in ascending order and keeps every one of them, duplicates included. */
  lemma SortCorrect(s: seq<string>)
    ensures Sorted(Sort(s)) && multiset(Sort(s)) == multiset(s)
  {
    SortSorted(s);
    SortPermutes(s);
  }

  /** `alarms.filter(a => a.active).map(a => a.time)`: the active alarms' times, in list order. */
  function ActiveTimes(alarms: seq<Alarm>): (r: seq<string>)
    ensures forall t :: t in r <==> exists i :: 0 <= i < |alarms| && alarms[i].active && alarms[i].time == t
    ensures |r| == 0 <==> forall i :: 0 <= i < |alarms| ==> !alarms[i].active
    ensures |r| <= |alarms|
    decreases |alarms|
  {
    if alarms == [] then []
    else
      var rest := ActiveTimes(alarms[1..]);
      assert forall i :: 0 < i < |alarms| ==> alarms[i] == alarms[1..][i - 1];
      (if alarms[0].active then [alarms[0].time] else []) + rest
  }

  /** The times of two lists one after the other are those of their concatenation: one entry per active alarm, duplicates kept, in order. */
  lemma {:induction false} ActiveTimesAppend(a: seq<Alarm>, b: seq<Alarm>)
    ensures ActiveTimes(a + b) == ActiveTimes(a) + ActiveTimes(b)
    decreases |a|
  {
    if a != [] {
      assert (a + b)[1..] == a[1..] + b;
      ActiveTimesAppend(a[1..], b);
    } else {
      assert a + b == b;
    }
  }

  /** A single alarm contributes its time exactly when it is active. */
  lemma ActiveTimesSingle(a: Alarm)
    ensures ActiveTimes([a]) == if a.active then [a.time] else []
  {
    assert [a][1..] == [];
  }

  /** The active alarms' times, sorted ascending. */
  function SortedActiveTimes(alarms: seq<Alarm>): (r: seq<string>)
    ensures Sorted(r) && multiset(r) == multiset(ActiveTimes(alarms))
  {
    SortCorrect(ActiveTimes(alarms));
    Sort(ActiveTimes(alarms))
  }

  /** `parts.join(" ~ ")`. */
  function Join(parts: seq<string>): string
    decreases |parts|
  {
    if |parts| == 0 then ""
    else if |parts| == 1 then parts[0]
    else parts[0] + " ~ " + Join(parts[1..])
  }

  /** Joining two non-empty lists is joining each and putting one separator between them. */
  lemma {:induction false} JoinAppend(ps: seq<string>, qs: seq<string>)
    requires ps != [] && qs != []
    ensures Join(ps + qs) == Join(ps) + " ~ " + Join(qs)
    decreases |ps|
  {
    if |ps| == 1 {
      assert (ps + qs)[1..] == qs;
    } else {
      assert (ps + qs)[1..] == ps[1..] + qs;
      JoinAppend(ps[1..], qs);
    }
  }

  /** There are times to list exactly when some alarm is active. */
  lemma SortedActiveTimesEmpty(alarms: seq<Alarm>)
    ensures (|SortedActiveTimes(alarms)| > 0) <==> exists i :: 0 <= i < |alarms| && alarms[i].active
  {
    assert |multiset(ActiveTimes(alarms))| == |multiset(SortedActiveTimes(alarms))|;
  }

  /**
   * The title for screen `v`: it opens with '(' exactly when some alarm is
   * active, and then it is the sorted active times joined by " ~ " in
   * parentheses; it always ends with the screen's name and the app suffix.
   */
  function DocumentTitle(v: View, alarms: seq<Alarm>): (r: string)
    ensures (|r| > 0 && r[0] == '(') <==> exists i :: 0 <= i < |alarms| && alarms[i].active
    ensures |r| >= |ViewTitle(v) + AppSuffix| && r[|r| - |ViewTitle(v) + AppSuffix|..] == ViewTitle(v) + AppSuffix
    ensures (exists i :: 0 <= i < |alarms| && alarms[i].active) ==>
      r == "(" + Join(SortedActiveTimes(alarms)) + ") " + ViewTitle(v) + AppSuffix
    ensures !(exists i :: 0 <= i < |alarms| && alarms[i].active) ==> r == ViewTitle(v) + AppSuffix
  {
    var times := SortedActiveTimes(alarms);
    var tail := ViewTitle(v) + AppSuffix;
    SortedActiveTimesEmpty(alarms);
    if |times| > 0 then
      var head := "(" + Join(times) + ") ";
      assert head + tail == "(" + Join(times) + ") " + ViewTitle(v) + AppSuffix;
      assert (head + tail)[|head + tail| - |tail|..] == tail;
      head + tail
    else
      assert tail[0] != '(';
      tail
  }
}
