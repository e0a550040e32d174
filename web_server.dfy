/** The web server binary: what `handle_client` writes back for a request,
    and `main`'s loop that hands at most five connections to a pool of
    five workers.  The socket and the file system are inputs: a read
    outcome, and a map from file name to contents in which a missing name
    stands for a failed read. */
module WebServer {
  import opened Mylib

  newtype Byte = b: int | 0 <= b < 256

  /** The size of the buffer the request is read into. */
  const BufferSize: nat := 512

  /** The bytes of an ASCII string. */
  function AsciiBytes(s: string): (b: seq<Byte>)
    requires forall k :: 0 <= k < |s| ==> s[k] < 128 as char
    ensures |b| == |s| && forall k :: 0 <= k < |s| ==> b[k] as int == s[k] as int
  {
    seq(|s|, k requires 0 <= k < |s| => s[k] as int as Byte)
  }

  /** The one request line the server answers with its home page. */
  const HomeRequestLine: seq<Byte> := AsciiBytes("GET / HTTP/1.1\r\n")

  const OkStatusLine: string := "HTTP/1.1 200 OK\r\n\r\n"
  const NotFoundStatusLine: string := "HTTP/1.1 404 NOT FOUND\r\n\r\n"
  const HomePage: string := "main.html"
  const NotFoundPage: string := "404.html"

  /** The result of `stream.read`: the bytes the peer has sent, or an error. */
  datatype ReadOutcome = ReadFailed | ReadOk(data: seq<Byte>)

  /** The status line to send and the file whose contents follow it. */
  datatype Reply = Reply(statusLine: string, fileName: string)

  function StartsWith(buffer: seq<Byte>, prefix: seq<Byte>): bool
  {
    |prefix| <= |buffer| && buffer[..|prefix|] == prefix
  }

  /** The zeroed 512-byte buffer after a read has copied in as much of the
      request as fits. */
  function FillBuffer(data: seq<Byte>): (buffer: seq<Byte>)
    ensures |buffer| == BufferSize
    ensures forall k :: 0 <= k < BufferSize ==> buffer[k] == if k < |data| then data[k] else 0
  {
    seq(BufferSize, k requires 0 <= k < BufferSize => if k < |data| then data[k] else 0)
  }

  /** The choice of status line and file. */
  function Route(buffer: seq<Byte>): Reply
  {
    if StartsWith(buffer, HomeRequestLine) then Reply(OkStatusLine, HomePage)
    else Reply(NotFoundStatusLine, NotFoundPage)
  }

  /** The home page is served exactly when the request itself begins with
      the home request line: the zero padding of a short request can never
      complete it, since that line holds no zero byte. */
  lemma RouteMatchesRequestLine(data: seq<Byte>)
    ensures Route(FillBuffer(data)) ==
      if IsHomeRequest(data) then Reply(OkStatusLine, HomePage)
      else Reply(NotFoundStatusLine, NotFoundPage)
  {
    var buffer := FillBuffer(data);
    var n := |HomeRequestLine|;
    if n <= |data| {
      assert buffer[..n] == data[..n];
    } else {
      assert buffer[|data|] != HomeRequestLine[|data|];
    }
  }

  /** The request, as the peer sent it, begins with the home request line. */
  predicate IsHomeRequest(data: seq<Byte>)
  {
    StartsWith(data, HomeRequestLine)
  }

  /** What `handle_client` writes to the stream, if anything: nothing after
      a failed read; otherwise `200 OK` and the home page for the home
      request line, `404 NOT FOUND` and the error page for anything else,
      and nothing if that page cannot be read. */
  function Respond(read: ReadOutcome, files: map<string, string>): (written: Option<string>)
    ensures read.ReadFailed? ==> written.None?
    ensures read.ReadOk? ==>
      var home := IsHomeRequest(read.data);
      var page := if home then HomePage else NotFoundPage;
      && (written.Some? <==> page in files)
      && (written.Some? ==> written.value == (if home then OkStatusLine else NotFoundStatusLine) + files[page])
  {
    match read
    case ReadFailed => None
    case ReadOk(data) =>
      RouteMatchesRequestLine(data);
      var reply := Route(FillBuffer(data));
      if reply.fileName in files then Some(reply.statusLine + files[reply.fileName]) else None
  }

  /** Only the first 512 bytes of a request are ever looked at. */
  lemma OnlyBufferInspected(a: seq<Byte>, b: seq<Byte>, files: map<string, string>)
    requires BufferSize <= |a| && BufferSize <= |b| && a[..BufferSize] == b[..BufferSize]
    ensures Respond(ReadOk(a), files) == Respond(ReadOk(b), files)
  {
    assert forall k :: 0 <= k < BufferSize ==> a[k] == a[..BufferSize][k] && b[k] == b[..BufferSize][k];
    assert FillBuffer(a) == FillBuffer(b);
  }

  /** `handle_client` on its 512-byte buffer, read in place. */
  method HandleClient(read: ReadOutcome, files: map<string, string>) returns (written: Option<string>)
    ensures written == Respond(read, files)
  {
    var buffer := new Byte[BufferSize](_ => 0);
    if read.ReadFailed? {
      return None;
    }
    var data := read.data;
    var count := if |data| < BufferSize then |data| else BufferSize;
    forall k | 0 <= k < count {
      buffer[k] := data[k];
    }
    assert buffer[..] == FillBuffer(data);
    var reply := Route(buffer[..]);
    if reply.fileName !in files {
      return None;
    }
    written := Some(reply.statusLine + files[reply.fileName]);
  }

  /** The pool size `main` asks for, and the number of connections it takes. */
  const PoolSize: nat := 5

  /** The result of accepting one connection. */
  datatype Accept = Accepted | AcceptFailed

  /** The job entries for connections `0 .. k-1`, in order. */
  function JobsUpTo(k: nat): (m: seq<Message>)
    ensures |m| == k && forall i :: 0 <= i < k ==> m[i] == NewJob(i)
  {
    seq(k, i requires 0 <= i < k => NewJob(i))
  }

  lemma JobsUpToNext(k: nat)
    ensures JobsUpTo(k + 1) == JobsUpTo(k) + [NewJob(k)]
  {
  }

  /** `main`: a pool of five, then one `execute` per accepted connection
      among the first five; a failed accept makes `main` return early.
      The listener's stream of connections never ends, so `incoming`, its
      first results, holds at least five.  Either way `pool` goes out of
      scope and drop's first loop queues one Terminate per worker behind
      the jobs; its join loop then waits on the workers (see `DropProgress`
      and `DropRunBounded`).  Connection `k` is submitted as job `k`.  No
      worker step is scheduled here, so every send is buffered. */
  method Serve(incoming: seq<Accept>) returns (pool: ThreadPool, submitted: nat, ok: bool)
    requires |incoming| >= PoolSize
    ensures fresh(pool) && pool.Valid() && pool.lifecycle == Joining(0)
    ensures |pool.workers| == PoolSize
    ensures submitted <= PoolSize
    ensures AcceptFailed !in incoming[..submitted]
    ensures ok <==> submitted == PoolSize
    ensures !ok ==> incoming[submitted].AcceptFailed?
    ensures pool.queue == JobsUpTo(submitted) + Terminates(PoolSize)
  {
    pool := new ThreadPool(PoolSize);
    ghost var workers := pool.workers;
    assert !workers[0].phase.Stopped?;
    submitted := 0;
    ok := true;
    assert JobsUpTo(0) == [];
    while submitted < PoolSize && ok
      invariant submitted <= PoolSize
      invariant pool.Valid() && pool.lifecycle.Open? && pool.workers == workers
      invariant AcceptFailed !in incoming[..submitted]
      invariant pool.queue == JobsUpTo(submitted)
      invariant !ok ==> submitted < PoolSize && incoming[submitted].AcceptFailed?
      decreases PoolSize - submitted, ok
    {
      if incoming[submitted].AcceptFailed? {
        ok := false;
      } else {
        assert incoming[..submitted + 1] == incoming[..submitted] + [Accepted];
        var accepted := pool.Execute(submitted);
        JobsUpToNext(submitted);
        submitted := submitted + 1;
      }
    }
    assert ChannelOpen(pool.workers);
    pool.SendTerminates();
  }
}
