/**
 * The questionnaire's sections and questions (lib/questions.ts), reduced to
 * what the form's validation and numbering read: each question's id, widget,
 * whether it is required, and its selection and length limits (0 where the
 * question sets none). Titles, help texts and option lists are not modelled.
 */
module Questions {

  datatype Widget = TextField | SelectField | Radio | Checkbox | Slider | TextArea

  datatype Question = Question(
    id: string,
    widget: Widget,
    required: bool,
    maxSelections: nat,
    minLength: nat,
    maxLength: nat)

  datatype Section = Section(id: string, questions: seq<Question>)

  /** A question with no limits. */
  function Plain(id: string, widget: Widget, required: bool): Question {
    Question(id, widget, required, 0, 0, 0)
  }

  function LimitedText(id: string, required: bool, maxLength: nat): Question {
    Question(id, TextArea, required, 0, 0, maxLength)
  }

  const Sections: seq<Section> := [
    Section("contact", [
      Plain("name", TextField, true),
      Plain("email", TextField, true),
      Plain("companyName", TextField, true),
      Plain("role", TextField, true),
      Plain("phone", TextField, false)]),
    Section("companyOverview", [
      Plain("q1_industry", SelectField, true),
      Plain("q2_business_model", Radio, true),
      Plain("q3_annual_revenue", Radio, true),
      Plain("q4_employee_count", Radio, true)]),
    Section("revenueComplexity", [
      Plain("q5_revenue_streams", Slider, true),
      Plain("q6_pricing_models", Checkbox, true),
      Plain("q7_recurring_revenue_pct", Radio, true),
      Plain("q8_billing_frequency", Checkbox, true)]),
    Section("customerComplexity", [
      Plain("q9_customer_count", Radio, true),
      Plain("q10_customer_segments", Slider, true),
      Plain("q11_contract_complexity", Radio, true),
      Plain("q12_sales_cycle_length", Radio, true)]),
    Section("operationalComplexity", [
      Plain("q13_locations", Radio, true),
      Plain("q14_currencies", Radio, true),
      Plain("q15_legal_entities", Radio, true),
      Plain("q16_compliance_requirements", Checkbox, false)]),
    Section("technology", [
      Plain("q17_current_tools", Checkbox, true),
      Plain("q18_integration_needs", Radio, true),
      Plain("q19_data_migration", Radio, true),
      LimitedText("q20_custom_requirements", false, 500)]),
    Section("teamResources", [
      Plain("q21_finance_team_size", Radio, true),
      Plain("q22_ops_team_size", Radio, true),
      Plain("q23_technical_capability", Radio, true),
      Plain("q24_change_management", Radio, true)]),
    Section("painPoints", [
      Question("q25_primary_challenges", Checkbox, true, 3, 0, 0),
      Plain("q26_time_spent_manual", Radio, true),
      LimitedText("q27_reporting_gaps", false, 400),
      LimitedText("q28_biggest_bottleneck", true, 400)]),
    Section("goalsOutcomes", [
      Plain("q29_primary_goals", Checkbox, true),
      Plain("q30_success_metrics", Checkbox, true),
      Plain("q31_timeline_pressure", Radio, true),
      LimitedText("q32_roi_expectations", false, 400)]),
    Section("budget", [
      Plain("q33_budget_range", Radio, true),
      Plain("q34_investment_timeline", Radio, true),
      Plain("q35_decision_process", Radio, true),
      Plain("q36_previous_investments", Checkbox, false)]),
    Section("readiness", [
      Plain("q37_implementation_readiness", Radio, true),
      Plain("q38_preferred_next_step", Radio, true)])
  ]

  /** Eleven sections: contact details, then ten numbered sections of four questions, the last of two. */
  lemma SectionSizes()
    ensures |Sections| == 11
    ensures |Sections[0].questions| == 5
    ensures forall k :: 1 <= k < 10 ==> |Sections[k].questions| == 4
    ensures |Sections[10].questions| == 2
  {
  }
}
