/**
 * The blob directory: temporary files written with a running hash, then published under their
 * digest. A collision-free hash is modelled by the content it was fed.
 */
module Blobstore {
  import opened Outcome
  import opened Utf
  import Upload

  type Bytes = seq<Byte>

  newtype TempId = n: int | 0 <= n

  datatype Digest = Digest(content: Bytes)

  datatype Error = Missing | DigestMismatch | CorruptBlob

  class Disk {
    var temps: map<TempId, Bytes>
    var blobs: map<Digest, Bytes>

    constructor ()
      ensures temps == map[] && blobs == map[] && Sound()
    {
      temps, blobs := map[], map[];
    }

    /** Every blob is named by its own digest. */
    ghost predicate Sound()
      reads this
    {
      forall d <- blobs :: blobs[d] == d.content
    }

    /** Store.Delete; a missing file is no error. */
    method Delete(d: Digest)
      modifies `blobs
      ensures blobs == old(blobs) - {d} && (old(Sound()) ==> Sound())
    {
      blobs := blobs - {d};
    }
  }

  /** An open temporary file. It stays usable after its path is unlinked. */
  class Temp {
    const disk: Disk
    const id: TempId
    var data: Bytes
    var hashed: Bytes
    var size: nat

    /** The running hash has seen exactly what the file holds, and the path, while there, shows it. */
    ghost predicate Valid()
      reads this, disk
    {
      hashed == data && size == |data| && (id in disk.temps ==> disk.temps[id] == data)
    }

    /** NewTemp: created, or emptied if it was there. */
    constructor New(disk: Disk, id: TempId)
      modifies disk`temps
      ensures Valid() && this.disk == disk && this.id == id && data == [] && disk.temps == old(disk.temps)[id := []]
    {
      this.disk, this.id, data, hashed, size := disk, id, [], [], 0;
      new;
      disk.temps := disk.temps[id := []];
    }

    /** Reopen: hash again what is there. */
    constructor Reopen(disk: Disk, id: TempId)
      requires id in disk.temps
      ensures Valid() && this.disk == disk && this.id == id && data == disk.temps[id]
    {
      this.disk, this.id, data, hashed, size := disk, id, disk.temps[id], disk.temps[id], |disk.temps[id]|;
    }

    method Write(p: Bytes)
      requires Valid()
      modifies this, disk`temps
      ensures Valid() && data == old(data) + p && disk.temps.Keys == old(disk.temps).Keys
      ensures disk.temps == if id in old(disk.temps) then old(disk.temps)[id := data] else old(disk.temps)
    {
      data := data + p;
      if id in disk.temps {
        disk.temps := disk.temps[id := data];
      }
      hashed, size := hashed + p, size + |p|;
    }

    /** Drops everything past n bytes and hashes what stays. */
    method Truncate(n: nat)
      requires Valid() && n <= size
      modifies this, disk`temps
      ensures Valid() && data == old(data)[..n]
      ensures disk.temps == if id in old(disk.temps) then old(disk.temps)[id := data] else old(disk.temps)
    {
      data := data[..n];
      if id in disk.temps {
        disk.temps := disk.temps[id := data];
      }
      hashed, size := data, |data|;
    }

    method Abort()
      modifies disk`temps
      ensures disk.temps == old(disk.temps) - {id}
    {
      disk.temps := disk.temps - {id};
    }

    /** Publishes the file under its digest: whatever is there under that digest afterwards is its bytes. */
    method Finalize(expected: Option<Digest>) returns (r: Result<Digest, Error>)
      requires Valid() && disk.Sound()
      modifies this, disk
      ensures disk.Sound()
      ensures r.Ok? ==>
        r.value == Digest(old(data)) && id !in disk.temps && disk.blobs == old(disk.blobs)[r.value := old(data)]
      ensures r.Err? ==> disk.blobs == old(disk.blobs)
      ensures r == Err(DigestMismatch) <==> expected.Some? && expected.value != Digest(old(data))
      ensures r.Ok? <==>
        ((expected.None? || expected.value == Digest(old(data))) &&
         (id in old(disk.temps) || Digest(old(data)) in old(disk.blobs)))
      ensures r != Err(CorruptBlob)
      ensures disk.temps == if r == Err(Missing) then old(disk.temps) else old(disk.temps) - {id}
    {
      var d := Digest(hashed);
      if expected.Some? && expected.value != d {
        Abort();
        return Err(DigestMismatch);
      }
      if d in disk.blobs {
        if |disk.blobs[d]| != size || Digest(disk.blobs[d]) != d {
          return Err(CorruptBlob);
        }
        Abort();
        return Ok(d);
      }
      if id !in disk.temps {
        return Err(Missing);
      }
      disk.blobs := disk.blobs[d := disk.temps[id]];
      disk.temps := disk.temps - {id};
      return Ok(d);
    }
  }

  /** One upload session's row and its handlers, with no other request beside them. */
  class Session {
    const disk: Disk
    const id: TempId
    const declared: nat
    const chunk: nat
    var received: nat
    var next: nat
    var status: Upload.Status
    ghost var made: bool

    function File(): Option<Bytes>
      reads this, disk
    {
      if id in disk.temps then Some(disk.temps[id]) else None
    }

    ghost function Snapshot(): Upload.State
      reads this, disk
    {
      Upload.State(declared, chunk, received, next, status, File(), made, None, false, {}, {})
    }

    constructor (disk: Disk, id: TempId, declared: nat, chunk: nat)
      requires id !in disk.temps
      modifies disk`temps
      ensures this.disk == disk && this.id == id
      ensures Snapshot() == Upload.MakeFile(Upload.Created(declared, chunk)).value
    {
      this.disk, this.id, this.declared, this.chunk, received, next, status, made := disk, id, declared, chunk, 0, 0,
        Upload.Pending, true;
      new;
      var tmp := new Temp.New(disk, id);
    }

    /** The chunk before the next one, read back from the file and compared. */
    method IsRepeat(body: Bytes) returns (same: bool)
      requires next > 0 && id in disk.temps
      ensures same == (Upload.LastChunk(Snapshot()) == Some(body))
    {
      var tmp := new Temp.Reopen(disk, id);
      var at := (next - 1) * chunk;
      var expected := declared - at;
      if expected > chunk {
        expected := chunk;
      }
      if expected < 0 || at + expected > |tmp.data| {
        return false;
      }
      return body == tmp.data[at..at + expected];
    }

    /** Cut back what never counted, write, count. */
    method AppendChunk(body: Bytes) returns (ok: bool)
      requires id in disk.temps
      modifies this`received, this`next, disk`temps
      ensures ok == (|old(disk.temps)[id]| >= old(received))
      ensures disk.temps == if ok then old(disk.temps)[id := old(disk.temps)[id][..old(received)] + body]
        else old(disk.temps)
      ensures received == old(received) + (if ok then |body| else 0) && next == old(next) + (if ok then 1 else 0)
    {
      var tmp := new Temp.Reopen(disk, id);
      if tmp.size < received {
        return false;
      }
      if tmp.size > received {
        tmp.Truncate(received);
      }
      assert tmp.data == old(disk.temps)[id][..received];
      tmp.Write(body);
      received, next := received + |body|, next + 1;
      return true;
    }

    /** PATCH /uploads/{id} */
    method PatchChunk(idx: nat, body: Bytes, live: bool) returns (reply: Upload.PatchReply)
      modifies this`received, this`next, this`status, disk`temps
      ensures (Snapshot(), reply) == Upload.PatchAlone(old(Snapshot()), idx, body, live)
    {
      hide Upload.LastChunk;
      if |body| > chunk {
        return Upload.TooLarge;
      }
      if !(live && status.Pending?) {
        return Upload.Gone;
      }
      if idx < next {
        if idx != next - 1 {
          return Upload.UnexpectedChunk;
        }
        if id !in disk.temps {
          return Upload.Broken;
        }
        var same := IsRepeat(body);
        return if same then Upload.Repeated else Upload.UnexpectedChunk;
      }
      if idx != next {
        return Upload.UnexpectedChunk;
      }
      if |body| == 0 || received + |body| > declared || (received + |body| < declared && |body| != chunk) {
        status := Upload.Failed;
        disk.temps := disk.temps - {id};
        return Upload.TooLarge;
      }
      if id !in disk.temps {
        return Upload.Broken;
      }
      var ok := AppendChunk(body);
      return if ok then Upload.Accepted else Upload.Broken;
    }
  }
}
