/** Projects and tasks as the estimator and the Gantt chart consume them,
    together with the two sample projects bundled with the engine. */
module Projects {
  import opened Wrappers

  /** One task of a project. `start` and `end` are the fields the chart
      layout writes; a task read from a project file carries neither
      (`None`, JavaScript's `undefined`). `risk` is free text: the samples use
      "low", "medium" and "high", but nothing enforces it. */
  datatype Task = Task(
    id: int,
    name: string,
    duration: int,
    dependencies: seq<int>,
    risk: string,
    start: Option<int>,
    end: Option<int>)

  datatype Project = Project(name: string, tasks: seq<Task>)

  /** A task as written in a project description, before any layout. */
  function NewTask(id: int, name: string, duration: int, dependencies: seq<int>, risk: string): Task
  {
    Task(id, name, duration, dependencies, risk, None, None)
  }

  /** True when the two tasks agree on everything except the layout fields. */
  predicate SameTaskData(a: Task, b: Task)
  {
    && a.id == b.id
    && a.name == b.name
    && a.duration == b.duration
    && a.dependencies == b.dependencies
    && a.risk == b.risk
  }

  /** The "simple" sample: a five-step web site, each step waiting for the previous one. */
  function SimpleProject(): (p: Project)
    ensures |p.tasks| == 5
    ensures forall i :: 0 <= i < |p.tasks| ==>
      && p.tasks[i].id == i + 1 && p.tasks[i].duration > 0
      && p.tasks[i].start.None? && p.tasks[i].end.None?
    ensures p.tasks[0].dependencies == []
    ensures forall i :: 1 <= i < |p.tasks| ==> p.tasks[i].dependencies == [i]
  {
    Project("Простой веб-сайт", [
      NewTask(1, "Анализ требований", 5, [], "low"),
      NewTask(2, "Дизайн", 7, [1], "medium"),
      NewTask(3, "Разработка", 10, [2], "high"),
      NewTask(4, "Тестирование", 5, [3], "medium"),
      NewTask(5, "Развертывание", 2, [4], "low")
    ])
  }

  /** The "complex" sample: a mobile application whose front end waits for both
      design and back end. */
  function ComplexProject(): (p: Project)
    ensures |p.tasks| == 9
    ensures forall i :: 0 <= i < |p.tasks| ==>
      && p.tasks[i].id == i + 1 && p.tasks[i].duration > 0
      && p.tasks[i].start.None? && p.tasks[i].end.None?
    ensures forall i, d :: 0 <= i < |p.tasks| && d in p.tasks[i].dependencies ==> 1 <= d <= i
  {
    Project("Мобильное приложение", [
      NewTask(1, "Исследование рынка", 7, [], "medium"),
      NewTask(2, "Анализ требований", 5, [1], "low"),
      NewTask(3, "UI/UX Дизайн", 10, [2], "medium"),
      NewTask(4, "Бэкенд разработка", 15, [2], "high"),
      NewTask(5, "Фронтенд разработка", 12, [3, 4], "high"),
      NewTask(6, "Интеграция", 8, [5], "high"),
      NewTask(7, "Тестирование", 7, [6], "medium"),
      NewTask(8, "Подготовка к запуску", 5, [7], "low"),
      NewTask(9, "Запуск", 2, [8], "medium")
    ])
  }
}
