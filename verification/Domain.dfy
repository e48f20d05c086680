/** Values shared by every service: the enumerations of shared/enums.py, the records
    the services exchange, and results that carry an HTTP status on failure. */
module Domain {

  datatype Option<+T> = None | Some(value: T)

  /** An endpoint either answers, or raises an HTTPException with `status`. */
  datatype Result<+T> = Ok(value: T) | Err(status: nat)

  const BAD_REQUEST: nat := 400
  const FORBIDDEN: nat := 403
  const NOT_FOUND: nat := 404
  const CONFLICT: nat := 409
  const SERVER_ERROR: nat := 500
  const UNAVAILABLE: nat := 503

  datatype LeaveType = Casual | Sick | Privilege

  datatype LeaveStatus = Pending | Approved | Rejected | Cancelled

  /** The contents of one leave request. Dates are day ordinals. */
  datatype Req = Req(
    id: string,
    employee: string,
    leaveType: LeaveType,
    start: int,
    end: int,
    days: int,
    reason: string,
    manager: string,
    status: LeaveStatus,
    rejection: Option<string>)
  {
    /** Cancelled and rejected requests no longer keep their days from others. */
    predicate IsActive() {
      status == Pending || status == Approved
    }

    function Key(): Key {
      (employee, leaveType)
    }
  }

  /** A balance is identified by its employee and leave type. */
  type Key = (string, LeaveType)

  datatype Account = Account(total: int, used: int) {
    /** Never stored: derived at read time. */
    function Remaining(): int {
      total - used
    }
  }

  /** The characters that Python's `str.strip` removes. */
  predicate IsSpace(c: char) {
    var u := c as int;
    || 0x09 <= u <= 0x0d || 0x1c <= u <= 0x20 || u == 0x85 || u == 0xa0
    || u == 0x1680 || 0x2000 <= u <= 0x200a || u == 0x2028 || u == 0x2029
    || u == 0x202f || u == 0x205f || u == 0x3000
  }

  /** The same characters, one by one. */
  const WHITESPACE: string :=
    "\t\n\U{0B}\U{0C}\r\U{1C}\U{1D}\U{1E}\U{1F} \U{85}\U{A0}\U{1680}"
    + "\U{2000}\U{2001}\U{2002}\U{2003}\U{2004}\U{2005}\U{2006}\U{2007}\U{2008}\U{2009}\U{200A}"
    + "\U{2028}\U{2029}\U{202F}\U{205F}\U{3000}"

  lemma IsSpaceIff(c: char)
    ensures IsSpace(c) <==> c in WHITESPACE
  {
    var s := WHITESPACE;
    if IsSpace(c) {
      var u := c as int;
      var i := if u <= 0x0d then u - 0x09 else if u <= 0x20 then u - 0x1c + 5
               else if u == 0x85 then 10 else if u == 0xa0 then 11 else if u == 0x1680 then 12
               else if u <= 0x200a then u - 0x2000 + 13
               else if u == 0x2028 then 24 else if u == 0x2029 then 25 else if u == 0x202f then 26
               else if u == 0x205f then 27 else 28;
      assert s[i] == c;
    }
  }

  /** True of "" and of strings that `strip` would empty. */
  predicate IsBlank(s: string) {
    forall i :: 0 <= i < |s| ==> IsSpace(s[i])
  }

  /** Python's `str.strip`. */
  function Strip(s: string): string {
    if s == [] then []
    else if IsSpace(s[0]) then Strip(s[1..])
    else if IsSpace(s[|s| - 1]) then Strip(s[..|s| - 1])
    else s
  }

  lemma {:induction false} BlankIffStripEmpty(s: string)
    ensures IsBlank(s) <==> Strip(s) == []
  {
    if s != [] {
      if IsSpace(s[0]) {
        BlankIffStripEmpty(s[1..]);
        assert s == [s[0]] + s[1..];
      } else if IsSpace(s[|s| - 1]) {
        BlankIffStripEmpty(s[..|s| - 1]);
      }
    }
  }

  /** The calendar days of an inclusive range. */
  function DaysOf(start: int, end: int): (days: set<int>)
    ensures forall d :: d in days <==> start <= d <= end
    ensures |days| == if start <= end then end - start + 1 else 0
    decreases end - start
  {
    if start > end then {} else DaysOf(start, end - 1) + {end}
  }
}
