# SSH reverse tunnel: port binding, endpoint parsing and client bookkeeping

`ssh_reverse.py` defines `SSHReverse`, a class that opens a paramiko SSH
session to a server and asks it to forward a remote port back through the
session to a destination reachable from the local machine (OpenSSH's `-R`).
Most of the class is sockets, threads and paramiko calls. This project models
its deterministic core in Dafny and proves properties of that model:

- `PyBuiltins` (`py_builtins.dfy`): the Python 2 values a `bind_port` argument
  can hold, the exceptions the modelled code raises on its own, and `int()`
  of a `str` together with its inverse `str()` of an integer.
- `HostPort` (`host_port.dfy`): `get_host_port`, which splits `host[:port]`
  text at its first colon, and `_parse_options`, which reads the server and
  the destination with `SSH_PORT` (22) as their default port.
- `BindPort` (`bind_port.dfy`): how the constructor and `set_bind_port` turn
  a `bind_port` argument into `bind_port_min`, `bind_port_max` and
  `bind_port_try`, including the Python errors either one raises.
- `PortBinder` (`port_binder.dfy`): the probe order of
  `_try_bind_server_port`, specified two ways:
  - `BindFrom`/`Bind` define the run recursively.
  - `IsRun` describes it declaratively.
  - Lemmas relate the two and prove termination, exhaustion, non-termination
    and worked examples.
- `Tunnel` (`ssh_reverse.dfy`): the `SSHReverse` object as a class whose
  methods update its fields in place. It holds:
  - the range fields and `bind_port_now`;
  - the `stop` flag;
  - the client stack (`_client_list` and `_client_curr`) and `_client_extra`;
  - the loop `_try_bind_server_port`, proved against `IsRun`;
  - the ordering of the deterministic steps of `create`.

The transport's reply to `request_port_forward` is an oracle from port to
`Accept` (returns), `Reject` (raises `paramiko.SSHException`) or
`OtherError` (raises anything else). The SSH connection
(`_connect_to_server`) and the destination check (`_test_remote_connectable`)
are oracles from endpoint to success. The calls to `close()` on removed
clients are recorded in a ghost log.

Some behaviour of the code is easy to misread:

- For the range `(10000, 10001, 10000)` with every port refused, the code
  requests only 10000. After the refusal the candidate becomes 10001, which
  equals `max` and wraps back to 10000 at once, so "already used" is raised
  after one request (`ExampleTwoPortsRefused`).
- The comment at ssh_reverse.py:190 promises an exception to the caller when
  no port can be bound. The code raises "already used" as soon as the next
  candidate is the preferred port again; it does not first try every port
  of `[min, max]`. On a range of more than one port, `max` is
  requested only when it is the preferred port (`MaxRequestedOnlyFirst`).
  When the preferred port is `max` and `min < max`, "already used" is never
  raised, and with every port refused the loop never ends (`NeverExhausts`,
  `HaltsIff`); no exception reaches the caller then. An accepted port still
  returns normally, and any other error is still re-raised.
- `create` pushes the new client before it connects. A failed connection or
  destination check therefore leaves that client on the stack; the stack is
  not restored.
- `create` sets `stop` back to `False` just before starting the forwarding
  thread (ssh_reverse.py:205). A `stop` set by an earlier `remove()` is
  therefore cleared by a later successful `create`.

## Model

| member | source | states |
|---|---|---|
| `PyBuiltins.IntOfStrRoundTrip` | ssh_reverse.py:312 | `int()` of `str(n)` gives back `n` for every integer, negative ones included |
| `PyBuiltins.ColonIsNotInt` | ssh_reverse.py:312 | `int()` rejects, with `ValueError`, any text that contains a colon, whatever white space or sign surrounds it |
| `HostPort.GetHostPort` | ssh_reverse.py:308-313 | parsing fails only with `ValueError` and only when the text has a colon; a parsed host has no colon and is a prefix of the text |
| `HostPort.GetHostPortNoColon` | ssh_reverse.py:311 | without a colon the whole text is the host and the port is the default |
| `HostPort.GetHostPortSplit` | ssh_reverse.py:311-313 | with a colon, the host is the text before the first colon and the port is `int()` of the rest; the call fails exactly when `int()` does |
| `HostPort.GetHostPortSecondColon` | ssh_reverse.py:311-312 | a second colon lands in the port text, and the call then fails with `ValueError` |
| `HostPort.GetHostPortRoundTrip` | ssh_reverse.py:308-313 | parsing `"%s:%d" % (host, port)` gives back `(host, port)` for a colon-free host and any default |
| `HostPort.ParseOptions` | ssh_reverse.py:145-147 | succeeds exactly when both the server and the destination parse with default 22, and returns the two parsed endpoints in that order |
| `HostPort.ParseOptionsDefaults` | ssh_reverse.py:145-146 | endpoints written without a port both get port 22 |
| `BindPort.InitBindPort` | ssh_reverse.py:69-73 | raises `TypeError` exactly for a non-`None` value without `len()`; a value of length 3 is read as `(min, max, try)` |
| `BindPort.InitBindPortTriple` | ssh_reverse.py:69-73 | a three-item tuple gives `min, max, try = t[0], t[1], t[2]`, whatever the items are |
| `BindPort.InitBindPortReplicates` | ssh_reverse.py:69-70 | `None` or a value whose length is not 3 lands unchanged in all three fields |
| `BindPort.InitBindPortThreeCharString` | ssh_reverse.py:69-73 | a three-character string is split into its three characters |
| `BindPort.SetBindPortValue` | ssh_reverse.py:85-93 | succeeds exactly for an `int` or a `str` that `int()` accepts; otherwise it raises `ValueError` for a `str` and `IndexError` for any other value |
| `BindPort.SetBindPortNumericString` | ssh_reverse.py:87-90 | the decimal text of a port and the `int` itself store the same port |
| `PortBinder.CandidateWraps` | ssh_reverse.py:271-274 | on `min <= try < max` the k-th candidate is `try + k` up to `max - 1`, then continues from `min` |
| `PortBinder.CandidateReturns` | ssh_reverse.py:271-275 | on a terminating range the candidates return to the preferred port after exactly `ProbeCount` steps, and not before |
| `PortBinder.BindFrom` | ssh_reverse.py:263-280 | the requests are the candidates in order, every request but the last was refused without reaching the exit test, the run ends at the first request where the loop leaves, and the outcome matches the last reply |
| `PortBinder.BindIsRun` | ssh_reverse.py:263-280 | the recursive run meets the declarative description `IsRun` |
| `PortBinder.RunUnique` | ssh_reverse.py:263-280 | at most one run meets the description, so the loop's behaviour is determined by the range and the transport |
| `PortBinder.RunIsBind` | ssh_reverse.py:263-280 | any run meeting the description is the recursive run, and the loop halts |
| `PortBinder.TerminatesStops` | ssh_reverse.py:271-277 | on `min <= try < max`, `min == try == max` or `try > max` the loop leaves by its `ProbeCount`-th request, whatever the transport answers |
| `PortBinder.HaltsIff` | ssh_reverse.py:265-277 | the loop returns exactly when the range is a terminating one or some candidate gets an answer other than a refusal |
| `PortBinder.BindStopsAtFirstAnswer` | ssh_reverse.py:264-280 | the first request is for `bind_port_try`; every earlier request was refused; an accepted port is bound and another error is re-raised at the port that raised it, with no request after either |
| `PortBinder.BindWithinProbeCount` | ssh_reverse.py:271-277 | on a terminating range at most `ProbeCount` ports are requested, and "already used" comes after exactly that many |
| `PortBinder.ExhaustionCoversRange` | ssh_reverse.py:271-277 | with `min <= try < max` and every port refused, each port of `[min, max - 1]` is requested exactly once, no other port is, and "already used" is raised |
| `PortBinder.SinglePortRange` | ssh_reverse.py:271-277 | with `min == try == max`, or `try > max`, exactly one port is requested, and a refusal raises "already used" |
| `PortBinder.MaxRequestedOnlyFirst` | ssh_reverse.py:271-274 | on a range of more than one port, `bind_port_max` is requested exactly when it is the preferred port |
| `PortBinder.NeverExhausts` | ssh_reverse.py:271-275 | off the terminating ranges (`try == max > min` among them) no later candidate equals the preferred port, so with every port refused the loop never ends |
| `PortBinder.ExampleWrapFromMax` | ssh_reverse.py:271-274 | `(10000, 10002, 10002)` with only 10001 free requests 10002, 10000, 10001 and binds 10001 |
| `PortBinder.ExampleTwoPortsRefused` | ssh_reverse.py:271-277 | `(10000, 10001, 10000)` with both ports taken requests only 10000 and raises "already used" |
| `Tunnel.SshReverse.constructor` | ssh_reverse.py:53-83 | asserts non-empty server and destination; the range fields are the normalised `bind_port`; `bind_port_now` is `None`, `stop` is false and both lists are empty |
| `Tunnel.SshReverse.SetBindPort` | ssh_reverse.py:85-93 | on success all three range fields hold the same integer port; on the exception nothing changes |
| `Tunnel.SshReverse.Client` | ssh_reverse.py:97-101 | `None` exactly on an empty stack, otherwise the most recently pushed client |
| `Tunnel.SshReverse.ClientCount` | ssh_reverse.py:114-116 | the stack's size, one more than the current index; zero exactly when there is no client |
| `Tunnel.SshReverse.ClientExtra` | ssh_reverse.py:118-122 | `None` on an empty stack; otherwise the record at the current index, or `IndexError` when fewer records than clients were added |
| `Tunnel.SshReverse.StatusFile` | ssh_reverse.py:108-112 | the status file of the current record, failing exactly when `client_extra` fails |
| `Tunnel.SshReverse.SetClient` | ssh_reverse.py:103-106 | pushes the client, which becomes current; the count grows by one |
| `Tunnel.SshReverse.SetClientExtra` | ssh_reverse.py:124-131 | appends one record and nothing else |
| `Tunnel.SshReverse.ClientRemove` | ssh_reverse.py:133-137 | returns the current client and pops it, making the previous one current; on an empty stack it returns `None` and changes nothing |
| `Tunnel.SshReverse.Remove` | ssh_reverse.py:224-234 | always sets `stop`; on an empty stack nothing else changes, otherwise exactly the top client is popped and closed |
| `Tunnel.SshReverse.TryBindServerPort` | ssh_reverse.py:263-280 | the ports requested and the outcome are the run `IsRun` describes; `bind_port_now` becomes the bound port on success and is unchanged otherwise |
| `Tunnel.SshReverse.Create` | ssh_reverse.py:176-191 | a parse error changes nothing; otherwise the client is pushed first; a failed connection or destination check requests no port; otherwise the bind run decides the outcome, `bind_port_now` and `stop` |
| `Tunnel.CreateFailsBeforeBind` | ssh_reverse.py:176-185 | with the range fields still `None`, a failed connection returns `ConnectFailed`, leaves the new client pushed, requests no port and leaves `bind_port_now` unchanged |
| `Tunnel.PushThenRemove` | ssh_reverse.py:97-137 | the stack is last in, first out: a push followed by a removal returns the pushed client and restores the stack |

## Left out

- `_reverse_forward_tunnel`, `handler` and the thread, `Event` and daemon handling of `create` (ssh_reverse.py:197-222, 282-353) are left out. They are concurrency and socket I/O. They also change modelled state:
  - When the transport dies, `_reverse_forward_tunnel` calls `remove()` (line 294). That sets `stop`, pops the client stack and closes the client.
  - The `except` branches of `create` set `stop` again (lines 216 and 220).
  
  None of these steps is modelled.
- `_connect_to_server`, `_test_remote_connectable` and the paramiko client setup are network and authentication calls. They are oracle parameters of `Create`, and each new client is an opaque `SshClient` value.
- `close()` on a removed client is a paramiko call. It is recorded in the ghost `closed` log.
- `_execute_command`, `_create_status_filename`, `port_test`, `verbose` and `STATUS_FILE_PATH` are left out. They are remote shell execution, formatting that is never called, dead code, and printing.
- `_parse_options` also defaults `username` through `getpass.getuser()`, an environment read, and sets `look_for_keys` to the constant `True`. Both values feed only the connection oracle, so they are not modelled.
- `self.thread` and `_client_file` are left out. The modelled code never reads either one.
- Python 2 `long` versus `int`, `bool` as an `int`, `unicode` strings, and `int()`'s acceptance of a trailing `L` or of non-ASCII digits are not modelled. Integers are unbounded, and `int()` accepts white space, one sign, and ASCII digits.
- Tunnel.SshReverse.constructor requires `InitBindPort(bindPort).Ok?`, because a Dafny constructor cannot raise. The `TypeError` that `__init__` raises for a value without `len()` is modelled and proved in `BindPort.InitBindPort`.
- Tunnel.SshReverse.TryBindServerPort requires integer range fields and a transport on which the loop halts, because a method must return. The loop that runs forever is characterised by `PortBinder.NeverExhausts` and `PortBinder.HaltsIff`. Comparing non-integer range fields, as Python 2 would, is not modelled.
- Tunnel.SshReverse.Create carries the requirements of `TryBindServerPort` only for calls that parse, connect and reach the destination, because only those calls reach the bind loop. It models the steps up to the bind and the reset of `stop` at line 205. Its ensures describe the state at that line, not the state when `create` returns: with `daemon=False`, `create` returns after `thr.join()` (line 214), possibly after the forwarding thread's `remove()`. A failure while starting the thread sets `stop` back to `True`, and that is not modelled.
