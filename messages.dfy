/**
 * Chat log entries (the `Message` interface of App.tsx).
 *
 * The source also gives every message a random `id` and a clock
 * `timestamp`; neither takes part in any decision, so a message here is its
 * role and its content.
 */
module Messages {

  datatype Role = User | Assistant | System

  datatype Message = Message(role: Role, content: string)

  /** The role as the source spells it: 'user', 'assistant' or 'system'. */
  function RoleName(role: Role): (name: string)
    ensures |name| > 0
    ensures role == User ==> name == "user"
    ensures role == Assistant ==> name == "assistant"
    ensures role == System ==> name == "system"
  {
    match role
    case User => "user"
    case Assistant => "assistant"
    case System => "system"
  }

  /** The number of entries of `log` that have the given role. */
  function CountRole(log: seq<Message>, role: Role): (n: nat)
    ensures n <= |log|
    ensures n == 0 <==> forall k :: 0 <= k < |log| ==> log[k].role != role
  {
    if log == [] then 0
    else CountRole(log[..|log| - 1], role) + (if log[|log| - 1].role == role then 1 else 0)
  }

  /** Counting over a log grown at its end adds up the two parts. */
  lemma {:induction false} CountRoleAppend(a: seq<Message>, b: seq<Message>, role: Role)
    ensures CountRole(a + b, role) == CountRole(a, role) + CountRole(b, role)
  {
    if b != [] {
      assert (a + b)[..|a + b| - 1] == a + b[..|b| - 1];
      CountRoleAppend(a, b[..|b| - 1], role);
    } else {
      assert a + b == a;
    }
  }
}
