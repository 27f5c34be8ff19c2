/**
 * A task of the software project scheduling problem: its identifier, the
 * effort it needs, its computed duration and start/finish instants, and the
 * skills it requires. The setters store exactly the value given; in
 * particular nothing keeps `start <= finish`.
 */
module Project {
  import opened Options

  class Task {
    var id: int
    var effort: real
    var duration: real
    var start: real
    var finish: real
    /** The required skills; `None` stands for a list that was never created. */
    var skills: Option<seq<int>>

    /** A task with an effort and an empty skill list; duration, start and finish are 0. */
    constructor (id: int, effort: real)
      ensures this.id == id && this.effort == effort && skills == Some([])
      ensures duration == 0.0 && start == 0.0 && finish == 0.0
      ensures IsTaskRunning(0)
    {
      this.id := id;
      this.effort := effort;
      duration := 0.0;
      start := 0.0;
      finish := 0.0;
      skills := Some([]);
    }

    /** A task with only an identifier: effort is 0 and the skill list is unset. */
    constructor WithId(id: int)
      ensures this.id == id && effort == 0.0 && skills == None
      ensures duration == 0.0 && start == 0.0 && finish == 0.0
    {
      this.id := id;
      effort := 0.0;
      duration := 0.0;
      start := 0.0;
      finish := 0.0;
      skills := None;
    }

    /** The accessors return the stored fields; each setter below changes exactly one of them. */
    function GetId(): (v: int)
      reads this
      ensures v == id
    {
      id
    }

    function GetEffort(): (v: real)
      reads this
      ensures v == effort
    {
      effort
    }

    function GetDuration(): (v: real)
      reads this
      ensures v == duration
    {
      duration
    }

    function GetStart(): (v: real)
      reads this
      ensures v == start
    {
      start
    }

    function GetFinish(): (v: real)
      reads this
      ensures v == finish
    {
      finish
    }

    function GetSkills(): (v: Option<seq<int>>)
      reads this
      ensures v == skills
    {
      skills
    }

    method SetId(id: int)
      modifies this
      ensures GetId() == id
      ensures effort == old(effort) && duration == old(duration) && start == old(start)
      ensures finish == old(finish) && skills == old(skills)
    {
      this.id := id;
    }

    method SetEffort(effort: real)
      modifies this
      ensures GetEffort() == effort
      ensures id == old(id) && duration == old(duration) && start == old(start)
      ensures finish == old(finish) && skills == old(skills)
    {
      this.effort := effort;
    }

    method SetDuration(duration: real)
      modifies this
      ensures GetDuration() == duration
      ensures id == old(id) && effort == old(effort) && start == old(start)
      ensures finish == old(finish) && skills == old(skills)
    {
      this.duration := duration;
    }

    method SetStart(start: real)
      modifies this
      ensures GetStart() == start
      ensures id == old(id) && effort == old(effort) && duration == old(duration)
      ensures finish == old(finish) && skills == old(skills)
    {
      this.start := start;
    }

    method SetFinish(finish: real)
      modifies this
      ensures GetFinish() == finish
      ensures id == old(id) && effort == old(effort) && duration == old(duration)
      ensures start == old(start) && skills == old(skills)
    {
      this.finish := finish;
    }

    method SetSkills(skills: Option<seq<int>>)
      modifies this
      ensures GetSkills() == skills
      ensures id == old(id) && effort == old(effort) && duration == old(duration)
      ensures start == old(start) && finish == old(finish)
    {
      this.skills := skills;
    }

    /** The task is being executed at `instant`: it lies in the closed interval [start, finish]. */
    predicate IsTaskRunning(instant: int)
      reads this
      ensures IsTaskRunning(instant) ==> start <= finish
      ensures IsTaskRunning(instant) ==> start <= instant as real
      ensures IsTaskRunning(instant) ==> instant as real <= finish
    {
      GetStart() <= instant as real && instant as real <= GetFinish()
    }
  }

  /**
   * A task whose start lies after its finish is running at no instant, and a
   * task with start <= finish is running at every integer instant between
   * them, both ends included.
   */
  lemma RunningInterval(t: Task, instant: int)
    ensures t.start > t.finish ==> !t.IsTaskRunning(instant)
    ensures t.start <= instant as real <= t.finish ==> t.IsTaskRunning(instant)
  {
  }

}
