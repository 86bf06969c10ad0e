/**
 * The log service (log-service/app/main.py): `create_log` stores an event
 * with the time it was received and a generated id; `get_logs` takes every
 * event newest first and narrows the list with one filter per query
 * parameter that is set (a comma-separated type list, a document number, and
 * inclusive time bounds).
 */
module LogService {
  import opened Base
  import opened Strings

  /** A stored event, with its id; times are instants on one integer scale. */
  datatype LogEntry = LogEntry(id: string, tipo: string, documento: string, detalles: string, fecha: int)

  /** The body of `POST /logs/`. */
  datatype LogCreate = LogCreate(tipo: string, documento: string, detalles: string)

  /** The query parameters of `GET /logs/`, the time bounds already parsed. */
  datatype LogQuery = LogQuery(tipo: Option<string>, documento: Option<string>, fechaInicio: Option<int>, fechaFin: Option<int>)

  // ---- Filtering ----

  /** A list comprehension `[e for e in s if p(e)]`. */
  function Where(s: seq<LogEntry>, p: LogEntry -> bool): (r: seq<LogEntry>)
    ensures |r| <= |s|
    ensures forall e :: e in r <==> e in s && p(e)
  {
    if s == [] then [] else (if p(s[0]) then [s[0]] else []) + Where(s[1..], p)
  }

  /** Filtering keeps the order of what it keeps. */
  lemma {:induction false} WhereSubsequence(s: seq<LogEntry>, p: LogEntry -> bool)
    ensures IsSubsequence(Where(s, p), s)
  {
    if s != [] {
      WhereSubsequence(s[1..], p);
      if p(s[0]) {
        assert Where(s, p) == [s[0]] + Where(s[1..], p);
        assert Where(s, p)[1..] == Where(s[1..], p);
      } else {
        assert Where(s, p) == Where(s[1..], p);
        SubsequenceWeaken(Where(s, p), s);
      }
    }
  }

  /** Two filters in a row are one filter on the conjunction. */
  lemma {:induction false} WhereWhere(s: seq<LogEntry>, p: LogEntry -> bool, q: LogEntry -> bool)
    ensures Where(Where(s, p), q) == Where(s, (e: LogEntry) => p(e) && q(e))
  {
    var both := (e: LogEntry) => p(e) && q(e);
    if s != [] {
      WhereWhere(s[1..], p, q);
      assert Where(s, both) == (if both(s[0]) then [s[0]] else []) + Where(s[1..], both);
      if p(s[0]) {
        assert Where(s, p) == [s[0]] + Where(s[1..], p);
        assert Where(s, p)[1..] == Where(s[1..], p);
        assert Where(Where(s, p), q) == (if q(s[0]) then [s[0]] else []) + Where(Where(s[1..], p), q);
      } else {
        assert Where(s, p) == Where(s[1..], p);
      }
    }
  }

  /** Filters that agree on every event give the same list. */
  lemma {:induction false} WhereSame(s: seq<LogEntry>, p: LogEntry -> bool, q: LogEntry -> bool)
    requires forall e :: p(e) == q(e)
    ensures Where(s, p) == Where(s, q)
  {
    if s != [] {
      WhereSame(s[1..], p, q);
    }
  }

  /** The order in which two filters are applied does not matter. */
  lemma WhereCommutes(s: seq<LogEntry>, p: LogEntry -> bool, q: LogEntry -> bool)
    ensures Where(Where(s, p), q) == Where(Where(s, q), p)
  {
    WhereWhere(s, p, q);
    WhereWhere(s, q, p);
    WhereSame(s, (e: LogEntry) => p(e) && q(e), (e: LogEntry) => q(e) && p(e));
  }

  /** `[t.strip() for t in tipo.split(',')]`. */
  function TypeList(tipo: string): (r: seq<string>)
    ensures |r| == |Split(tipo, ',')|
    ensures forall k :: 0 <= k < |r| ==> r[k] == Strip(Split(tipo, ',')[k])
  {
    seq(|Split(tipo, ',')|, k requires 0 <= k < |Split(tipo, ',')| => Strip(Split(tipo, ',')[k]))
  }

  /** A parameter is applied only when it is truthy: present and non-empty for strings. */
  predicate Given(s: Option<string>) { s.Some? && s.value != "" }

  /** The type filter of a non-empty `tipo`. */
  function TypeFilter(tipo: string): LogEntry -> bool { (e: LogEntry) => e.tipo in TypeList(tipo) }

  function DocumentFilter(documento: string): LogEntry -> bool { (e: LogEntry) => e.documento == documento }

  function FromFilter(inicio: int): LogEntry -> bool { (e: LogEntry) => e.fecha >= inicio }

  function UntilFilter(fin: int): LogEntry -> bool { (e: LogEntry) => e.fecha <= fin }

  /** The event satisfies every filter whose parameter is set. */
  predicate Selected(q: LogQuery, e: LogEntry)
  {
    (Given(q.tipo) ==> e.tipo in TypeList(q.tipo.value))
    && (Given(q.documento) ==> e.documento == q.documento.value)
    && (q.fechaInicio.Some? ==> e.fecha >= q.fechaInicio.value)
    && (q.fechaFin.Some? ==> e.fecha <= q.fechaFin.value)
  }

  /** The answer to a query: the events satisfying every set filter, in stream order. */
  function Answer(stream: seq<LogEntry>, q: LogQuery): seq<LogEntry>
  {
    Where(stream, (e: LogEntry) => Selected(q, e))
  }

  /** Applying one filter when its parameter is set. */
  function Narrow(logs: seq<LogEntry>, on: bool, p: LogEntry -> bool): seq<LogEntry>
  {
    if on then Where(logs, p) else logs
  }

  /**
   * Narrowing what already satisfies `done` with an optional filter leaves
   * what satisfies `done` and, when the filter is on, the filter.
   */
  lemma NarrowStep(stream: seq<LogEntry>, done: LogEntry -> bool, on: bool, p: LogEntry -> bool,
                   next: LogEntry -> bool)
    requires forall e :: next(e) == (done(e) && (on ==> p(e)))
    ensures Narrow(Where(stream, done), on, p) == Where(stream, next)
  {
    if on {
      WhereWhere(stream, done, p);
      WhereSame(stream, (e: LogEntry) => done(e) && p(e), next);
    } else {
      WhereSame(stream, done, next);
    }
  }

  /**
   * `get_logs`: the newest-first stream, narrowed by each set parameter in
   * turn; a failure reading the stream is a 500 carrying its text.
   */
  method GetLogs(stream: Result<seq<LogEntry>, string>, q: LogQuery) returns (r: Result<seq<LogEntry>, string>)
    ensures stream.Err? ==> r == Err(stream.error)
    ensures stream.Ok? ==> r == Ok(Answer(stream.value, q))
  {
    if stream.Err? {
      return Err(stream.error);
    }
    var all := stream.value;
    var logs := all;
    WhereAll(all);
    ghost var done: LogEntry -> bool := (e: LogEntry) => true;
    ghost var next: LogEntry -> bool;
    ghost var off: LogEntry -> bool := (e: LogEntry) => true;

    if Given(q.tipo) {
      logs := Where(logs, TypeFilter(q.tipo.value));
    }
    next := (e: LogEntry) => done(e) && (Given(q.tipo) ==> e.tipo in TypeList(q.tipo.value));
    NarrowStep(all, done, Given(q.tipo), if Given(q.tipo) then TypeFilter(q.tipo.value) else off, next);
    done := next;

    if Given(q.documento) {
      logs := Where(logs, DocumentFilter(q.documento.value));
    }
    next := (e: LogEntry) => done(e) && (Given(q.documento) ==> e.documento == q.documento.value);
    NarrowStep(all, done, Given(q.documento), if Given(q.documento) then DocumentFilter(q.documento.value) else off, next);
    done := next;

    if q.fechaInicio.Some? {
      logs := Where(logs, FromFilter(q.fechaInicio.value));
    }
    next := (e: LogEntry) => done(e) && (q.fechaInicio.Some? ==> e.fecha >= q.fechaInicio.value);
    NarrowStep(all, done, q.fechaInicio.Some?, if q.fechaInicio.Some? then FromFilter(q.fechaInicio.value) else off, next);
    done := next;

    if q.fechaFin.Some? {
      logs := Where(logs, UntilFilter(q.fechaFin.value));
    }
    next := (e: LogEntry) => done(e) && (q.fechaFin.Some? ==> e.fecha <= q.fechaFin.value);
    NarrowStep(all, done, q.fechaFin.Some?, if q.fechaFin.Some? then UntilFilter(q.fechaFin.value) else off, next);

    WhereSame(all, next, (e: LogEntry) => Selected(q, e));
    return Ok(logs);
  }

  /** A filter that keeps everything is the identity. */
  lemma {:induction false} WhereAll(s: seq<LogEntry>)
    ensures Where(s, (e: LogEntry) => true) == s
  {
    if s != [] {
      WhereAll(s[1..]);
    }
  }

  /** Newest first: times never increase along the list. */
  predicate NewestFirst(s: seq<LogEntry>)
  {
    forall i, j :: 0 <= i < j < |s| ==> s[i].fecha >= s[j].fecha
  }

  /**
   * The answer is an order-preserving selection from the stream: newest
   * first whenever the stream is, and an event is in it exactly when it is in
   * the stream and satisfies every set filter.
   */
  lemma AnswerFacts(stream: seq<LogEntry>, q: LogQuery)
    ensures IsSubsequence(Answer(stream, q), stream)
    ensures forall e :: e in Answer(stream, q) <==> e in stream && Selected(q, e)
    ensures NewestFirst(stream) ==> NewestFirst(Answer(stream, q))
  {
    WhereSubsequence(stream, (e: LogEntry) => Selected(q, e));
    if NewestFirst(stream) {
      SubsequenceOrdered(Answer(stream, q), stream);
    }
  }

  /** A subsequence of a newest-first list is newest first. */
  lemma {:induction false} SubsequenceOrdered(a: seq<LogEntry>, b: seq<LogEntry>)
    requires IsSubsequence(a, b) && NewestFirst(b)
    ensures NewestFirst(a)
    decreases |b|
  {
    if a != [] && b != [] {
      if a[0] == b[0] {
        SubsequenceOrdered(a[1..], b[1..]);
        SubsequenceMembers(a[1..], b[1..]);
        forall j | 0 < j < |a| ensures a[0].fecha >= a[j].fecha {
          assert a[j] == a[1..][j - 1];
          assert a[j] in b[1..];
          var k :| 0 <= k < |b[1..]| && b[1..][k] == a[j];
          assert b[k + 1] == a[j];
        }
      } else {
        SubsequenceOrdered(a, b[1..]);
      }
    }
  }

  /** With no parameter set every event is returned, in stream order. */
  lemma NoParametersAnswerAll(stream: seq<LogEntry>)
    ensures Answer(stream, LogQuery(None, None, None, None)) == stream
  {
    WhereSame(stream, (e: LogEntry) => Selected(LogQuery(None, None, None, None), e), (e: LogEntry) => true);
    WhereAll(stream);
  }

  // ---- The collection ----

  class LogCollection {
    /** The `logs` collection: document id to stored event. */
    var docs: map<string, LogEntry>

    constructor (docs: map<string, LogEntry>)
      ensures this.docs == docs
    {
      this.docs := docs;
    }

    /**
     * `create_log`: the body stamped with the time of receipt is stored under
     * a freshly generated id, and returned with that id.
     */
    method CreateLog(log: LogCreate, now: int, id: string) returns (r: LogEntry)
      requires id !in docs
      modifies this
      ensures r == LogEntry(id, log.tipo, log.documento, log.detalles, now)
      ensures docs == old(docs)[id := r]
    {
      r := LogEntry(id, log.tipo, log.documento, log.detalles, now);
      docs := docs[id := r];
    }
  }
}
