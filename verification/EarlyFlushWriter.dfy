// The wrapper itself: eight flags, two header maps and a capture buffer, each
// method one locked section of the design.
module EarlyFlush {
  import opened Bytes
  import opened Http
  import opened Design = EarlyFlushDesign
  import opened Wrappers

  class Writer {
    const voice: Voice
    var sniffVerdict: bool // whether a firing still has to consult the prefix
    var shadow: Headers
    var header: Headers
    var committed: bool
    var decided: bool
    var preflushed: bool
    var streamed: bool
    var translating: bool
    var terminated: bool
    var closed: bool
    var intended: int
    var errBuf: bytes
    var upload: Upload
    var timer: Option<nat> // when the timer fires, if it is running

    ghost var sent: seq<Call>
    ghost var notes: seq<Note>

    // Which of the flag combinations occur.
    ghost predicate Valid()
      reads this
    {
      && (committed <==> decided || preflushed)
      && (streamed || translating || terminated ==> preflushed)
      && (streamed || translating ==> decided)
      && (terminated ==> !decided)
      && !(streamed && translating)
      && (errBuf != [] ==> translating)
      && |errBuf| <= MAX_CAPTURE
    }

    ghost function Stage(): Phase
      reads this
    {
      if !preflushed then (if decided then Forwarding else Untouched)
      else if terminated then Ended
      else if streamed then Streamed
      else if translating then Translating
      else if decided then Concluded
      else Covering
    }

    ghost function View(): Design.State
      reads this
    {
      Design.State(Stage(), closed, intended, errBuf, upload, shadow, header, sent, notes)
    }

    // `desperation` is when the preamble is due if the body is still coming in.
    constructor (voice: Voice, entry: Headers, desperation: nat)
      ensures Valid() && this.voice == voice && View() == Initial(entry)
      ensures sniffVerdict && timer == Some(desperation)
    {
      this.voice := voice;
      sniffVerdict, shadow, header := true, entry, entry;
      committed, decided, preflushed, streamed, translating, terminated, closed :=
        false, false, false, false, false, false, false;
      intended, errBuf, upload, timer := 0, [], Complete, Some(desperation);
      sent, notes := [], [];
    }

    // First drop what the shadow lacks, then copy what it has.
    method CommitShadowLocked()
      modifies this`committed, this`header
      ensures committed
      ensures header == if old(committed) then old(header) else shadow
    {
      if committed {
        return;
      }
      committed := true;
      var keys := header.Keys;
      while keys != {}
        invariant committed && keys <= header.Keys
        invariant forall k :: k in header && k !in keys ==> k in shadow
      {
        var k :| k in keys;
        keys := keys - {k};
        if k !in shadow {
          header := header - {k};
        }
      }
      assert header.Keys <= shadow.Keys;
      keys := shadow.Keys;
      while keys != {}
        invariant committed && keys <= shadow.Keys && header.Keys <= shadow.Keys
        invariant forall k :: k in shadow && k !in keys ==> k in header && header[k] == shadow[k]
      {
        var k :| k in keys;
        keys := keys - {k};
        header := header[k := shadow[k]];
      }
    }

    // The handler edits the map Header() handed out.
    method EditHeader(h: Headers)
      requires Valid()
      modifies this`shadow
      ensures Valid() && View() == old(View()).(shadow := h)
    {
      shadow := h;
    }

    method TryDisarm() returns (ok: bool)
      requires Valid()
      modifies this`closed, this`timer
      ensures Valid() && ok == !Preflushed(old(Stage())) && View() == Design.Disarmed(old(View()))
      ensures timer == if ok then None else old(timer)
    {
      if preflushed {
        return false;
      }
      closed := true;
      timer := None;
      return true;
    }

    method UploadFailed(received: nat, declared: nat)
      requires Valid()
      modifies this`upload
      ensures Valid() && View() == old(View()).(upload := Cut(received, declared))
    {
      upload := Cut(received, declared);
    }

    // The old timer is stopped and one due at `deadline` started.
    method Rearm(deadline: nat) returns (scheduled: bool)
      requires Valid()
      modifies this`sniffVerdict, this`timer
      ensures Valid() && scheduled == !(closed || Preflushed(Stage()))
      ensures sniffVerdict == (old(sniffVerdict) && !scheduled)
      ensures timer == if scheduled then Some(deadline) else old(timer)
    {
      if closed || preflushed {
        return false;
      }
      sniffVerdict := false;
      timer := Some(deadline);
      return true;
    }

    method FlushNow(prefix: Verdict) returns (spawned: bool)
      requires Valid()
      modifies this
      ensures Valid() && sniffVerdict == old(sniffVerdict) && timer == old(timer)
      ensures var v := if sniffVerdict then prefix else SaysStream;
              View() == Design.FlushNow(old(View()), v)
      ensures spawned <==> old(Stage()) == Untouched && Stage() == Covering
    {
      if closed || decided || preflushed {
        return false;
      }
      var verdict := SaysStream;
      if sniffVerdict {
        verdict := prefix;
      }
      if verdict == SaysJson {
        notes := notes + [Held];
        return false;
      }
      preflushed := true;
      committed := true;
      var h := Set(header, CONTENT_TYPE, EVENT_STREAM);
      h := Set(h, CACHE_CONTROL, NO_CACHE);
      h := Set(h, CONNECTION, KEEP_OPEN);
      h := Set(h, ACCEL_BUFFERING, NO);
      header := h;
      sent := sent + [Status(200, header), Call.Flush(header)];
      notes := notes + [Flushed(verdict)];
      return true;
    }

    // The part of a heartbeat that holds the lock. `done` tells the goroutine
    // to leave its loop.
    method HeartbeatLocked(late: bool) returns (done: bool)
      requires Valid() && preflushed
      modifies this`terminated, this`intended, this`sent
      ensures Valid() && View() == Design.Heartbeat(voice, old(View()), late)
      ensures done <==> old(closed || Stage() != Covering) || late
    {
      if closed || decided || terminated {
        return true;
      }
      if late {
        terminated := true;
        intended := 504;
        sent := sent + [Body(voice.frame(504, []), header), Call.Flush(header)];
        return true;
      }
      sent := sent + [Body(voice.keepAlive, header), Call.Flush(header)];
      return false;
    }

    method WriteHeader(code: int)
      requires Valid()
      modifies this
      ensures Valid() && View() == Design.WriteHeader(old(View()), code)
      ensures sniffVerdict == old(sniffVerdict) && timer.None?
    {
      timer := None;
      if !preflushed {
        decided := true;
        CommitShadowLocked();
        sent := sent + [Status(code, header)];
        return;
      }
      if terminated || closed {
        return;
      }
      decided := true;
      intended := code;
      if code >= 400 && !streamed {
        translating := true;
      }
    }

    method Write(b: bytes)
      requires Valid()
      modifies this
      ensures Valid() && View() == Design.Write(old(View()), b)
      ensures sniffVerdict == old(sniffVerdict) && timer.None?
    {
      timer := None;
      if !preflushed {
        decided := true;
        CommitShadowLocked();
        sent := sent + [Body(b, header)];
        return;
      }
      if terminated || closed {
        return;
      }
      decided := true;
      if translating {
        if |errBuf| < MAX_CAPTURE {
          var n := if |b| <= MAX_CAPTURE - |errBuf| then |b| else MAX_CAPTURE - |errBuf|;
          errBuf := errBuf + b[..n];
        }
        return;
      }
      streamed := true;
      sent := sent + [Body(b, header)];
    }

    method Flush()
      requires Valid()
      modifies this
      ensures Valid() && View() == Design.FlushOut(old(View()))
      ensures sniffVerdict == old(sniffVerdict)
      ensures timer == if Preflushed(old(Stage())) then old(timer) else None
    {
      if !preflushed {
        timer := None;
        decided := true;
        CommitShadowLocked();
        sent := sent + [Call.Flush(header)];
        return;
      }
      if terminated || closed || translating {
        return;
      }
      decided := true;
      sent := sent + [Call.Flush(header)];
    }

    method Written(below: bool) returns (written: bool)
      requires Valid()
      ensures written <==> Preflushed(Stage()) || below
    {
      if preflushed {
        return true;
      }
      return below;
    }

    method StatusOf(below: int) returns (status: int)
      requires Valid()
      ensures status == Reported(View(), below)
    {
      if intended != 0 {
        return intended;
      }
      return below;
    }

    // finish, first locked section: the tombstone.
    method FinishClose()
      requires Valid()
      modifies this`closed, this`timer
      ensures Valid() && View() == old(View()).(closed := true) && timer.None?
    {
      closed := true;
      timer := None;
    }

    // finish, second locked section, after the heartbeat has been joined.
    method FinishReport(hungUp: bool)
      requires Valid()
      modifies this`intended, this`sent, this`notes
      ensures Valid() && View() == Design.Finish(voice, old(View()), hungUp)
    {
      if !preflushed || terminated || streamed {
        return;
      }
      if decided && !translating {
        return;
      }
      if hungUp {
        return;
      }
      var status := intended;
      if status == 0 {
        status := 502;
        intended := status;
      }
      sent := sent + [Body(voice.frame(status, errBuf), header), Call.Flush(header)];
      if upload.Cut? {
        notes := notes + [UploadCut(upload.received, upload.declared)];
        return;
      }
      notes := notes + [Translated(status)];
    }
  }
}
