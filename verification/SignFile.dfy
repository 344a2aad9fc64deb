/** Client.SignFile: read, sign over the network, publish by rename. */
module SignFile {
  import opened Common
  import opened Disk
  import opened ClientRetry
  import WriteAtomic

  datatype FileError = ReadFailed | SignFailed(reply: Reply) | PublishFailed

  /** An empty output path stands for the input path. */
  function Target(input: Path, output: Option<Path>): Path {
    if output.Some? then output.value else input
  }

  /** What the service did to the bytes it was sent: the reply is the end of one call of Client.Sign. */
  ghost predicate Served(retries: nat, service: seq<Byte> -> World, data: seq<Byte>, reply: Reply) {
    exists made: nat :: Ends(retries, service(data), made, reply)
  }

  /** Nil exactly when bytes that the service delivered for the content of the input were published. Any other
      end leaves every file as it was, and no instant shows the target in any third state. */
  method SignFile(client: Client, disk: Disk, service: seq<Byte> -> World, input: Path, output: Option<Path>,
                  name: string, url: string, now: int)
    returns (error: Option<FileError>, ghost published: Option<FileData>,
             ghost scratch: set<Path>, ghost stuck: set<Path>)
    requires disk.Valid()
    modifies disk
    ensures disk.Valid() && old(disk.history) <= disk.history
    ensures Replaces(old(disk.files), disk.files, disk.history, |old(disk.history)|, Target(input, output),
                     published, scratch, stuck)
    ensures error.None? <==> published.Some?
    ensures published.Some? ==> input in old(disk.files)
    ensures published.Some? ==>
              Served(client.retries, service, old(disk.files)[input].content, SignedBytes(published.value.content))
    ensures published.Some? && disk.faults == old(disk.faults) ==>
              published.value.mode == WriteAtomic.ModeRule(old(disk.files), input, Target(input, output))
    ensures output.Some? && error.None? ==> Get(disk.files, output.value) == published
    ensures output.Some? && output.value != input && input in old(disk.files) ==>
              Get(disk.files, input) == Get(old(disk.files), input)
              && forall k :: |old(disk.history)| <= k < |disk.history| ==>
                   Get(disk.history[k], input) == Get(old(disk.files), input)
    ensures output.None? && error.None? ==> Get(disk.files, input) == published
    ensures output.Some? && error.None? && disk.faults == old(disk.faults) ==>
              published.value.mode == if output.value in old(disk.files) then old(disk.files)[output.value].mode % 512
                                      else old(disk.files)[input].mode % 512
    ensures output.None? && error.None? && disk.faults == old(disk.faults) ==>
              published.value.mode == old(disk.files)[input].mode % 512
    ensures error.Some? ==> forall p :: p in old(disk.files) ==> Get(disk.files, p) == Get(old(disk.files), p)
    ensures error.Some? && !error.value.PublishFailed? ==>
              disk.files == old(disk.files) && disk.history == old(disk.history)
    ensures scratch <= {WriteAtomic.TempFile(disk, Target(input, output), old(disk.temps))}
    ensures AllRefused(stuck, disk.faults, |old(disk.faults)|)
    ensures disk.faults == old(disk.faults) && error.Some? ==>
              error.value.SignFailed? || (error.value.ReadFailed? && input !in old(disk.files))
    ensures error.Some? && error.value.SignFailed? ==>
              !error.value.reply.SignedBytes? && input in old(disk.files)
    ensures error.Some? && error.value.SignFailed? && BadField(input.base, name, url).Some? ==>
              error.value.reply == BadHeader(BadField(input.base, name, url).value)
    ensures error.Some? && error.value.SignFailed? && BadField(input.base, name, url).None? ==>
              Served(client.retries, service, old(disk.files)[input].content, error.value.reply)
  {
    published, scratch, stuck := None, {}, {};
    var data := disk.Read(input);
    if data.None? {
      return Some(ReadFailed), published, scratch, stuck;
    }
    var wire := new Wire(service(data.value), now);
    var reply := client.Sign(wire, input.base, name, url);
    if !reply.SignedBytes? {
      return Some(SignFailed(reply)), published, scratch, stuck;
    }
    var ok;
    ghost var mode;
    ok, mode, scratch, stuck := WriteAtomic.WriteAtomic(disk, reply.signed, input, Target(input, output));
    if ok {
      return None, Some(FileData(reply.signed, mode)), scratch, stuck;
    }
    error := Some(PublishFailed);
  }
}
