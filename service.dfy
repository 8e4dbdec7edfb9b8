/** Image and container naming in the Docker service wrapper,
    xrally_docker/service.py: an image name without a tag gets the
    "latest" tag, and a container without a name gets a generated one. */
module Service {
  import opened Wrappers
  import Text

  const LATEST_TAG := ":latest"

  /** `_fix_the_name`: a name with no ":" is tagged ":latest"; a name
      with a ":" is used as given. */
  function FixTheName(name: string): (r: string)
    ensures ':' in r
    ensures ':' in name ==> r == name
    ensures ':' !in name ==> r == name + LATEST_TAG
  {
    if ':' !in name then name + LATEST_TAG else name
  }

  /** Fixing a fixed name changes nothing. */
  lemma FixTheNameIdempotent(name: string)
    ensures FixTheName(FixTheName(name)) == FixTheName(name)
  {
  }

  /** An untagged name ends up with the tag "latest": the text after its
      first ":" is "latest", and the text before it is the name. */
  lemma {:induction false} UntaggedNameGetsLatest(name: string)
    requires ':' !in name
    ensures Text.AfterFirst(FixTheName(name), ':') == Some("latest")
    ensures Text.IndexOf(FixTheName(name), ':') == Some(|name|)
  {
    assert FixTheName(name) == name + [':'] + "latest";
    Text.AfterFirstSplit(name, "latest", ':');
    var s := FixTheName(name);
    assert s[|name|] == ':';
    assert s[..|name|] == name;
  }

  /** The requests the service sends to the Docker client. */
  datatype ClientCall =
    | Pull(image: string)
    | Run(image: string, name: string, command: Option<string>,
          detach: bool, stdout: bool, stderr: bool, remove: bool)

  /** `pull_image(name)`: pulls the tagged name. */
  function PullImage(name: string): (call: ClientCall)
    ensures call.Pull? && ':' in call.image
    ensures ':' in name ==> call.image == name
    ensures ':' !in name ==> call.image == name + LATEST_TAG
  {
    Pull(FixTheName(name))
  }

  /** `run_container(...)`: runs the tagged image under the given name,
      or under `randomName` (the result of `generate_random_name()`) when
      no non-empty name is given. */
  function RunContainer(imageName: string, containerName: Option<string>, randomName: string,
                        command: Option<string>, detach: bool, stdout: bool, stderr: bool,
                        remove: bool): (call: ClientCall)
    ensures call.Run? && call.image == FixTheName(imageName)
    ensures call.name == randomName <==> containerName.None? || containerName.value == "" || containerName.value == randomName
    ensures containerName.Some? && containerName.value != "" ==> call.name == containerName.value
    ensures call.command == command && call.detach == detach && call.stdout == stdout
    ensures call.stderr == stderr && call.remove == remove
  {
    var name := if containerName.Some? && containerName.value != "" then containerName.value else randomName;
    Run(FixTheName(imageName), name, command, detach, stdout, stderr, remove)
  }

  /** The service's unit-test names. */
  lemma FixTheNameExamples()
    ensures FixTheName("foo:bar") == "foo:bar"
    ensures FixTheName("foo") == "foo:latest"
  {
    assert "foo:bar"[3] == ':';
  }
}
