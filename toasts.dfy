/**
 * The toast store of components/ui/use-toast.ts: a module-level id counter,
 * the list of visible toasts (at most TOAST_LIMIT of them), `toast` and
 * `dismiss`.
 */
module Toasts {
  import opened Wrappers

  /** At most this many toasts are kept: `slice(-TOAST_LIMIT)`. */
  const TOAST_LIMIT: nat := 1

  /** JavaScript's Number.MAX_SAFE_INTEGER, the modulus of the id counter. */
  const MAX_SAFE_INTEGER: nat := 9007199254740991

  datatype Variant = Default | Destructive

  /**
   * What a caller hands to `toast`: every field of Toast except `id`.
   * Titles, descriptions and the action element are React nodes there;
   * here they are represented by their text.
   */
  datatype ToastProps = ToastProps(
    title: Option<string>,
    description: Option<string>,
    action: Option<string>,
    variant: Option<Variant>)

  datatype Toast = Toast(id: string, props: ToastProps)

  // ---------------------------------------------------------------------
  // Decimal ids: `count.toString()`

  function DigitChar(d: nat): (c: char)
    requires d < 10
    ensures '0' <= c <= '9'
  {
    "0123456789"[d]
  }

  function DigitValue(c: char): nat
  {
    if '0' <= c <= '9' then (c - '0') as nat else 0
  }

  /** The value of a string of decimal digits, read left to right. */
  function ParseDecimal(s: string): nat
  {
    if s == [] then 0 else ParseDecimal(s[..|s| - 1]) * 10 + DigitValue(s[|s| - 1])
  }

  /** The decimal representation of n, as Number.prototype.toString gives it for a safe integer. */
  function Decimal(n: nat): (s: string)
    ensures |s| > 0
    ensures forall i :: 0 <= i < |s| ==> '0' <= s[i] <= '9'
    ensures |s| > 1 ==> s[0] != '0'
  {
    if n < 10 then [DigitChar(n)] else Decimal(n / 10) + [DigitChar(n % 10)]
  }

  /** Reading the decimal string back gives the number: toString loses nothing. */
  lemma {:induction false} DecimalRoundTrip(n: nat)
    ensures ParseDecimal(Decimal(n)) == n
  {
    var s := Decimal(n);
    if n >= 10 {
      DecimalRoundTrip(n / 10);
      assert s[..|s| - 1] == Decimal(n / 10);
      assert DigitValue(s[|s| - 1]) == n % 10;
    }
  }

  /** Different counter values give different ids. */
  lemma DecimalInjective(a: nat, b: nat)
    ensures Decimal(a) == Decimal(b) <==> a == b
  {
    if Decimal(a) == Decimal(b) {
      DecimalRoundTrip(a);
      DecimalRoundTrip(b);
    }
  }

  // ---------------------------------------------------------------------
  // The id counter: `count = (count + 1) % Number.MAX_SAFE_INTEGER`

  function NextCount(count: nat): (c: nat)
    ensures c < MAX_SAFE_INTEGER
    ensures count + 1 < MAX_SAFE_INTEGER ==> c == count + 1
    ensures count + 1 == MAX_SAFE_INTEGER ==> c == 0
  {
    (count + 1) % MAX_SAFE_INTEGER
  }

  /** The counter after k calls of genId, starting from count. */
  function CountAfter(count: nat, k: nat): nat
  {
    if k == 0 then count else NextCount(CountAfter(count, k - 1))
  }

  /** Until it reaches MAX_SAFE_INTEGER the counter goes up by one per call. */
  lemma {:induction false} CountAfterBeforeWrap(count: nat, k: nat)
    requires count + k < MAX_SAFE_INTEGER
    ensures CountAfter(count, k) == count + k
  {
    if k > 0 {
      CountAfterBeforeWrap(count, k - 1);
    }
  }

  /** The counter comes round: the call after MAX_SAFE_INTEGER - 1 yields 0 again. */
  lemma CountWrapsToZero(count: nat)
    requires count < MAX_SAFE_INTEGER
    ensures CountAfter(count, MAX_SAFE_INTEGER - count) == 0
  {
    var k := MAX_SAFE_INTEGER - count;
    CountAfterBeforeWrap(count, k - 1);
  }

  /**
   * Two distinct calls among consecutive genId calls that stay below
   * MAX_SAFE_INTEGER return different ids.
   */
  lemma ConsecutiveIdsDistinct(count: nat, i: nat, j: nat)
    requires 1 <= i < j && count + j < MAX_SAFE_INTEGER
    ensures Decimal(CountAfter(count, i)) != Decimal(CountAfter(count, j))
  {
    CountAfterBeforeWrap(count, i);
    CountAfterBeforeWrap(count, j);
    DecimalInjective(CountAfter(count, i), CountAfter(count, j));
  }

  // ---------------------------------------------------------------------
  // List updates handed to setToasts

  /** `s.slice(-k)` for a positive k: the last k elements, or all of s when it is shorter. */
  function SliceLast<T>(s: seq<T>, k: nat): (r: seq<T>)
    requires k > 0
    ensures |r| == if |s| < k then |s| else k
    ensures forall i :: 0 <= i < |r| ==> r[i] == s[|s| - |r| + i]
  {
    if |s| <= k then s else s[|s| - k..]
  }

  /** `[...toasts, newToast].slice(-TOAST_LIMIT)` */
  function AddToast(toasts: seq<Toast>, t: Toast): (r: seq<Toast>)
    ensures 0 < |r| <= TOAST_LIMIT
    ensures r[|r| - 1] == t
    ensures |toasts| < TOAST_LIMIT ==> r == toasts + [t]
  {
    SliceLast(toasts + [t], TOAST_LIMIT)
  }

  /** `toasts.filter((t) => t.id !== id)` */
  function WithoutId(toasts: seq<Toast>, id: string): (r: seq<Toast>)
    ensures forall t :: t in r <==> t in toasts && t.id != id
    ensures |r| <= |toasts|
    ensures (forall k :: 0 <= k < |toasts| ==> toasts[k].id != id) ==> r == toasts
  {
    if toasts == [] then []
    else if toasts[0].id == id then WithoutId(toasts[1..], id)
    else [toasts[0]] + WithoutId(toasts[1..], id)
  }

  /** The filter keeps the survivors in their order: it distributes over concatenation. */
  lemma {:induction false} WithoutIdAppend(a: seq<Toast>, b: seq<Toast>, id: string)
    ensures WithoutId(a + b, id) == WithoutId(a, id) + WithoutId(b, id)
  {
    if a == [] {
      assert a + b == b;
    } else {
      assert (a + b)[0] == a[0];
      assert (a + b)[1..] == a[1..] + b;
      WithoutIdAppend(a[1..], b, id);
    }
  }

  /**
   * The updater of `dismiss(toastId)`: a truthy id (a non-empty string)
   * filters that id out, a missing or empty id clears the list.
   */
  function Dismissed(toasts: seq<Toast>, toastId: Option<string>): (r: seq<Toast>)
    ensures toastId.None? || toastId.value == "" ==> r == []
    ensures toastId.Some? && toastId.value != "" ==>
      forall t :: t in r <==> t in toasts && t.id != toastId.value
  {
    match toastId
    case Some(id) => if id != "" then WithoutId(toasts, id) else []
    case None => []
  }

  /** Dismissing twice is the same as dismissing once. */
  lemma {:induction false} DismissIdempotent(toasts: seq<Toast>, toastId: Option<string>)
    ensures Dismissed(Dismissed(toasts, toastId), toastId) == Dismissed(toasts, toastId)
  {
    if toastId.Some? && toastId.value != "" {
      WithoutIdIdempotent(toasts, toastId.value);
    }
  }

  lemma {:induction false} WithoutIdIdempotent(toasts: seq<Toast>, id: string)
    ensures WithoutId(WithoutId(toasts, id), id) == WithoutId(toasts, id)
  {
    var r := WithoutId(toasts, id);
    forall k | 0 <= k < |r| ensures r[k].id != id {
      assert r[k] in r;
    }
  }

  /** The toast's own auto-dismiss, if nothing came in between, empties the list. */
  lemma OwnDismissEmpties(toasts: seq<Toast>, id: string, props: ToastProps)
    requires id != ""
    ensures Dismissed(AddToast(toasts, Toast(id, props)), Some(id)) == []
  {
    var r := AddToast(toasts, Toast(id, props));
    assert r == [Toast(id, props)];
  }

  /** A stale auto-dismiss of an older toast leaves a newer toast, with a different id, in place. */
  lemma StaleDismissKeepsNewer(toasts: seq<Toast>, older: Toast, newer: Toast)
    requires older.id != "" && older.id != newer.id
    ensures Dismissed(AddToast(AddToast(toasts, older), newer), Some(older.id)) == [newer]
  {
    var r := AddToast(AddToast(toasts, older), newer);
    assert r == [newer];
  }

  // ---------------------------------------------------------------------
  // The store

  /**
   * `count` is the module-level counter; `toasts` is the state of one
   * `useToast` hook. Each updater handed to setToasts is applied at once.
   */
  class ToastStore {
    var count: nat
    var toasts: seq<Toast>

    ghost predicate Valid()
      reads this
    {
      count < MAX_SAFE_INTEGER && |toasts| <= TOAST_LIMIT
    }

    constructor ()
      ensures Valid()
      ensures count == 0 && toasts == []
    {
      count := 0;
      toasts := [];
    }

    /** `genId`: advance the counter and return its decimal string. */
    method GenId() returns (id: string)
      requires Valid()
      modifies this`count
      ensures Valid()
      ensures count == NextCount(old(count))
      ensures id == Decimal(count)
    {
      count := NextCount(count);
      id := Decimal(count);
    }

    /** `toast(props)`: a fresh id, the new toast appended and the list cut to TOAST_LIMIT. */
    method Show(props: ToastProps) returns (id: string)
      requires Valid()
      modifies this
      ensures Valid()
      ensures count == NextCount(old(count)) && id == Decimal(count)
      ensures toasts == AddToast(old(toasts), Toast(id, props))
      ensures toasts[|toasts| - 1] == Toast(id, props)
    {
      id := GenId();
      toasts := AddToast(toasts, Toast(id, props));
    }

    /** `dismiss(toastId)` */
    method Dismiss(toastId: Option<string>)
      requires Valid()
      modifies this`toasts
      ensures Valid()
      ensures toasts == Dismissed(old(toasts), toastId)
    {
      toasts := Dismissed(toasts, toastId);
    }
  }
}
