/** The CliApp object as the API server stores it, and the checks made on its spec. */
module CliApps {
  import opened Wrappers

  // The seven values of CliAppPhase; Unset is the empty string.
  datatype Phase = Unset | Rest | Recovering | Building | Live | WaitingForSessions | ShuttingDown

  datatype Fork = Fork(object: string, container: string, withEnvs: bool)

  datatype Spec = Spec(
    fork: Option<Fork>,
    image: string,
    dockerfile: string,
    command: seq<string>,
    hostPath: seq<string>,
    env: seq<string>,
    distro: string,
    shell: string,
    target: Phase,
    uninstall: bool)

  // lastTransition counts nanoseconds; error is empty when there is none.
  datatype Status = Status(phase: Phase, lastTransition: int, podName: string, error: string)

  datatype CliApp = CliApp(name: string, spec: Spec, status: Status)

  // What every stored status keeps: phase Live always names a Pod, phase Rest never does.
  predicate StatusOk(s: Status) {
    && (s.phase == Live ==> s.podName != "")
    && (s.phase == Rest ==> s.podName == "")
  }

  const SHELL_BASH := "bash"
  const SHELL_ZSH := "zsh"
  const DISTRO_ALPINE := "alpine"
  const DISTRO_UBUNTU := "ubuntu"

  predicate ValidDistro(d: string) { d == DISTRO_ALPINE || d == DISTRO_UBUNTU }

  predicate ValidShell(s: string) { s == SHELL_BASH || s == SHELL_ZSH }
}
