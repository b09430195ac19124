/** The thread name an egress worker's runtime thread is given. */
module WorkerRuntime {

  /** Linux limits thread names to 15 bytes (plus the terminating zero). */
  const LinuxThreadNameMaxLen: nat := 15
  const DefaultEgressRouteRuntimeThreadName: string := "up-egress-route"

  /** How many bytes the UTF-8 encoding of `c` takes. */
  function Utf8Width(c: char): (w: nat)
    ensures 1 <= w <= 4
    ensures w == 1 <==> (c as int) < 0x80
  {
    if (c as int) < 0x80 then 1
    else if (c as int) < 0x800 then 2
    else if (c as int) < 0x1_0000 then 3
    else 4
  }

  /** `String::len`: the length of the UTF-8 encoding in bytes. */
  function Utf8Len(s: string): nat
  {
    if s == [] then 0 else Utf8Len(s[..|s| - 1]) + Utf8Width(s[|s| - 1])
  }

  /** Every character takes one to four bytes, so only the empty string has no bytes. */
  lemma {:induction false} Utf8LenBounds(s: string)
    ensures |s| <= Utf8Len(s) <= 4 * |s|
    ensures Utf8Len(s) == 0 <==> s == []
  {
    if s != [] {
      Utf8LenBounds(s[..|s| - 1]);
    }
  }

  /** An ASCII string takes one byte per character. */
  lemma {:induction false} Utf8LenAscii(s: string)
    requires forall i :: 0 <= i < |s| ==> (s[i] as int) < 0x80
    ensures Utf8Len(s) == |s|
  {
    if s != [] {
      Utf8LenAscii(s[..|s| - 1]);
    }
  }

  /**
   * `sanitize_runtime_thread_name`: a name that is empty or longer than
   * the kernel accepts is replaced by the default name.
   */
  function SanitizeRuntimeThreadName(name: string): (r: string)
    ensures r != [] && Utf8Len(r) <= LinuxThreadNameMaxLen
    ensures name != [] && Utf8Len(name) <= LinuxThreadNameMaxLen ==> r == name
    ensures r != name ==> r == DefaultEgressRouteRuntimeThreadName
  {
    Utf8LenAscii(DefaultEgressRouteRuntimeThreadName);
    if name == [] || Utf8Len(name) > LinuxThreadNameMaxLen then DefaultEgressRouteRuntimeThreadName
    else name
  }

  /** Sanitising an already sanitised name changes nothing. */
  lemma SanitizeIdempotent(name: string)
    ensures SanitizeRuntimeThreadName(SanitizeRuntimeThreadName(name)) == SanitizeRuntimeThreadName(name)
  {
  }

  /** A name is kept exactly when it is a usable thread name. */
  lemma SanitizeKeepsExactlyValidNames(name: string)
    ensures SanitizeRuntimeThreadName(name) == name <==> 0 < Utf8Len(name) <= LinuxThreadNameMaxLen
  {
    Utf8LenBounds(name);
  }
}
